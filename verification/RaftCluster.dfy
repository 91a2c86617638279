/**
 A Raft cluster as a state machine. One action is one locked region of one node,
 a crash with restart, or the loss of a call. Calls are delivered in any order,
 after any delay, at most once; a reply reaches only the instance that asked.
 */
module RaftCluster {
  import opened RaftLog
  import opened RaftNode

  datatype Option<T> = None | Some(value: T)

  datatype VoteCall = VoteCall(cand: nat, epoch: nat, peer: nat, term: nat, lastIndex: int, lastTerm: int,
                               reply: Option<VoteReply>)
  datatype BeatCall = BeatCall(from: nat, epoch: nat, peer: nat, term: nat, serial: nat, reply: Option<BeatReply>)
  datatype AppendCall = AppendCall(from: nat, epoch: nat, peer: nat, args: AppendArgs, serial: nat,
                                   reply: Option<AppendReply>)

  // The history records what happened; no node ever reads it, except that a
  // heartbeat round is started only by an instance that has led.

  datatype Slot = Slot(term: nat, node: nat)
  datatype Ballot = Ballot(term: nat, voter: nat, cand: nat, log: Log)
  datatype Win = Win(term: nat, node: nat, epoch: nat, log: Log, quorum: set<Ballot>)
  datatype Commit = Commit(term: nat, index: int, prefix: Log)
  datatype Instance = Instance(node: nat, epoch: nat)

  datatype History = History(
    adverts: map<Slot, Log>,              // the log a candidate advertised, per election
    ballots: set<Ballot>,                 // every vote, with the voter's log at that moment
    wins: set<Win>,                       // every election won, with the winner's log and its voters
    termLogs: TermLogs,                   // the log as last extended by the leader of the term
    acks: map<Slot, int>,                 // the highest index a node accepted from the leader of the term
    commits: set<Commit>,                 // every index a leader committed by counting, with its log up to there
    applied: map<Instance, seq<ApplyMsg>>)// what each instance handed to its service, in order

  datatype Cluster = Cluster(
    nodes: seq<Node>,
    epochs: seq<nat>,
    votes: set<VoteCall>,
    beats: set<BeatCall>,
    appends: set<AppendCall>,
    serial: nat,
    hist: History)

  datatype Action =
    | Elect(i: nat)
    | HandleVote(vote: VoteCall)
    | RecvVote(vote: VoteCall)
    | Beat(i: nat)
    | HandleBeat(beat: BeatCall)
    | RecvBeat(beat: BeatCall)
    | SendAppend(i: nat, peer: nat)
    | HandleAppend(append: AppendCall)
    | RecvAppend(append: AppendCall)
    | Propose(i: nat, cmd: Command)
    | ApplyOne(i: nat)
    | Restart(i: nat)
    | LoseVote(vote: VoteCall)
    | LoseBeat(beat: BeatCall)
    | LoseAppend(append: AppendCall)

  function Init(n: nat): Cluster {
    Cluster(seq(n, _ => Boot(Blank)), seq(n, _ => 0), {}, {}, {}, 0,
            History(map[], {}, {}, map[], map[], {}, map[]))
  }

  /** What the code never checks and must always find true: ids in range, no empty log, arrays of cluster size. */
  ghost predicate Sane(c: Cluster) {
    && |c.epochs| == |c.nodes|
    && (forall i :: 0 <= i < |c.nodes| ==> NodeOk(c.nodes[i], |c.nodes|))
    && (forall k :: k in c.votes ==> k.cand < |c.nodes| && k.peer < |c.nodes| && k.cand != k.peer)
    && (forall k :: k in c.beats ==> k.from < |c.nodes| && k.peer < |c.nodes|)
    && (forall k :: k in c.appends ==> k.from < |c.nodes| && k.peer < |c.nodes| && k.from != k.peer)
  }

  // --------------------------------------------------------------- history

  function AckOf(h: History, t: nat, p: nat): (r: int) {
    if Slot(t, p) in h.acks then h.acks[Slot(t, p)] else -1
  }

  function RaiseAck(h: History, t: nat, p: nat, end: int): History {
    if end > AckOf(h, t, p) then h.(acks := h.acks[Slot(t, p) := end]) else h
  }

  function BallotsFor(ballots: set<Ballot>, t: nat, cand: nat): set<Ballot> {
    set b | b in ballots && b.term == t && b.cand == cand
  }

  function RecordWin(h: History, i: nat, epoch: nat, s: Node): History
    requires s.log != []
  {
    RaiseAck(h.(wins := h.wins + {Win(s.term, i, epoch, s.log, BallotsFor(h.ballots, s.term, i))},
                termLogs := h.termLogs[s.term := s.log]),
             s.term, i, |s.log| - 1)
  }

  function RecordElection(h: History, i: nat, s: Node): History {
    h.(adverts := h.adverts[Slot(s.term, i) := s.log],
       ballots := h.ballots + {Ballot(s.term, i, i, s.log)})
  }

  function RecordApply(h: History, at: Instance, m: ApplyMsg): History {
    h.(applied := h.applied[at := AppliedBy(h, at) + [m]])
  }

  function AppliedBy(h: History, at: Instance): seq<ApplyMsg> {
    if at in h.applied then h.applied[at] else []
  }

  predicate HasLed(c: Cluster, i: nat)
    requires i < |c.epochs|
  {
    exists w :: w in c.hist.wins && w.node == i && w.epoch == c.epochs[i]
  }

  // ----------------------------------------------------------------- steps

  function Ids(n: nat): (ids: set<nat>)
    ensures forall p: nat :: p in ids <==> p < n
    ensures |ids| == n
  {
    if n == 0 then {} else Ids(n - 1) + {n - 1}
  }

  function Others(n: nat, i: nat): set<nat> {
    Ids(n) - {i}
  }

  predicate Enabled(c: Cluster, a: Action)
    requires |c.epochs| == |c.nodes|
  {
    match a
    case Elect(i) => i < |c.nodes|
    case HandleVote(k) => k in c.votes && k.reply.None?
    case RecvVote(k) => k in c.votes && k.reply.Some? && k.cand < |c.nodes| && c.epochs[k.cand] == k.epoch
    case Beat(i) => i < |c.nodes| && HasLed(c, i)
    case HandleBeat(k) => k in c.beats && k.reply.None?
    case RecvBeat(k) => k in c.beats && k.reply.Some? && k.from < |c.nodes| && c.epochs[k.from] == k.epoch
    case SendAppend(i, p) => i < |c.nodes| && p < |c.nodes| && i != p && c.nodes[i].role == Leader
    case HandleAppend(k) => k in c.appends && k.reply.None?
    case RecvAppend(k) => k in c.appends && k.reply.Some? && k.from < |c.nodes| && c.epochs[k.from] == k.epoch
    case Propose(i, _) => i < |c.nodes| && c.nodes[i].role == Leader
    case ApplyOne(i) => i < |c.nodes| && CanApply(c.nodes[i])
    case Restart(i) => i < |c.nodes|
    case LoseVote(k) => k in c.votes
    case LoseBeat(k) => k in c.beats
    case LoseAppend(k) => k in c.appends
  }

  function DoElect(c: Cluster, i: nat): Cluster
    requires |c.epochs| == |c.nodes| && i < |c.nodes| && c.nodes[i].log != []
  {
    var n := |c.nodes|;
    var s := StartElection(c.nodes[i], i, n);
    var h := RecordElection(c.hist, i, s);
    if s.role == Leader then
      c.(nodes := c.nodes[i := s], hist := RecordWin(h, i, c.epochs[i], s))
    else
      c.(nodes := c.nodes[i := s],
         votes := c.votes + (set p | p in Others(n, i) ::
           VoteCall(i, c.epochs[i], p, s.term, |s.log| - 1, LastTerm(s.log), None)),
         hist := h)
  }

  function DoHandleVote(c: Cluster, k: VoteCall): Cluster
    requires k.peer < |c.nodes| && c.nodes[k.peer].log != []
  {
    var (s, r) := RequestVote(c.nodes[k.peer], VoteArgs(k.term, k.cand, k.lastIndex, k.lastTerm));
    c.(nodes := c.nodes[k.peer := s],
       votes := c.votes - {k} + {k.(reply := Some(r))},
       hist := if r.granted then c.hist.(ballots := c.hist.ballots + {Ballot(s.term, k.peer, k.cand, s.log)})
               else c.hist)
  }

  function DoRecvVote(c: Cluster, k: VoteCall): Cluster
    requires |c.epochs| == |c.nodes| && k.cand < |c.nodes| && c.nodes[k.cand].log != [] && k.reply.Some?
  {
    var old_ := c.nodes[k.cand];
    var s := OnVoteReply(old_, k.cand, |c.nodes|, k.term, k.reply.value);
    c.(nodes := c.nodes[k.cand := s],
       votes := c.votes - {k},
       hist := if s.role == Leader && old_.role != Leader then RecordWin(c.hist, k.cand, c.epochs[k.cand], s)
               else c.hist)
  }

  function DoBeat(c: Cluster, i: nat): Cluster
    requires |c.epochs| == |c.nodes| && i < |c.nodes|
  {
    c.(beats := c.beats + (set p | p in Others(|c.nodes|, i) ::
         BeatCall(i, c.epochs[i], p, c.nodes[i].term, c.serial, None)),
       serial := c.serial + 1)
  }

  function DoHandleBeat(c: Cluster, k: BeatCall): Cluster
    requires k.peer < |c.nodes|
  {
    var (s, r) := Heartbeat(c.nodes[k.peer], k.term);
    c.(nodes := c.nodes[k.peer := s], beats := c.beats - {k} + {k.(reply := Some(r))})
  }

  function DoRecvBeat(c: Cluster, k: BeatCall): Cluster
    requires k.from < |c.nodes| && k.reply.Some?
  {
    c.(nodes := c.nodes[k.from := OnBeatReply(c.nodes[k.from], k.term, k.reply.value)], beats := c.beats - {k})
  }

  function DoSendAppend(c: Cluster, i: nat, p: nat): Cluster
    requires |c.epochs| == |c.nodes| && i < |c.nodes|
    requires p < |c.nodes[i].nextIndex| && NextFor(c.nodes[i], p) <= |c.nodes[i].log|
  {
    c.(nodes := c.nodes[i := ClampNext(c.nodes[i], p)],
       appends := c.appends + {AppendCall(i, c.epochs[i], p, BuildAppend(c.nodes[i], i, p), c.serial, None)},
       serial := c.serial + 1)
  }

  function DoHandleAppend(c: Cluster, k: AppendCall): Cluster
    requires k.peer < |c.nodes|
  {
    var (s, r) := AppendEntries(c.nodes[k.peer], k.args);
    c.(nodes := c.nodes[k.peer := s],
       appends := c.appends - {k} + {k.(reply := Some(r))},
       hist := if r.success then RaiseAck(c.hist, k.args.term, k.peer, EndOf(k.args)) else c.hist)
  }

  function DoRecvAppend(c: Cluster, k: AppendCall): Cluster
    requires k.from < |c.nodes| && k.peer < |c.nodes| && k.reply.Some?
    requires NodeOk(c.nodes[k.from], |c.nodes|)
  {
    var old_ := c.nodes[k.from];
    var s := OnAppendReply(old_, k.from, k.peer, k.args, k.reply.value);
    c.(nodes := c.nodes[k.from := s],
       appends := c.appends - {k},
       hist := if s.commitIndex > old_.commitIndex then
                 c.hist.(commits := c.hist.commits + {Commit(s.term, s.commitIndex, s.log[..s.commitIndex + 1])})
               else c.hist)
  }

  function DoPropose(c: Cluster, i: nat, cmd: Command): Cluster
    requires i < |c.nodes| && c.nodes[i].role == Leader
    requires i < |c.nodes[i].matchIndex| && i < |c.nodes[i].nextIndex|
  {
    var s := RaftNode.Propose(c.nodes[i], i, cmd);
    c.(nodes := c.nodes[i := s],
       hist := RaiseAck(c.hist.(termLogs := c.hist.termLogs[s.term := s.log]), s.term, i, |s.log| - 1))
  }

  function DoApply(c: Cluster, i: nat): Cluster
    requires |c.epochs| == |c.nodes| && i < |c.nodes| && CanApply(c.nodes[i])
  {
    var s := c.nodes[i];
    c.(nodes := c.nodes[i := s.(lastApplied := s.lastApplied + 1)],
       hist := RecordApply(c.hist, Instance(i, c.epochs[i]), NextMsg(s)))
  }

  /** crash1 and start1: the instance is gone, the next one boots from the Persister. */
  function DoRestart(c: Cluster, i: nat): Cluster
    requires |c.epochs| == |c.nodes| && i < |c.nodes|
  {
    c.(nodes := c.nodes[i := Boot(c.nodes[i].disk)], epochs := c.epochs[i := c.epochs[i] + 1])
  }

  ghost function Do(c: Cluster, a: Action): Cluster
    requires Sane(c) && Enabled(c, a)
  {
    match a
    case Elect(i) => DoElect(c, i)
    case HandleVote(k) => DoHandleVote(c, k)
    case RecvVote(k) => DoRecvVote(c, k)
    case Beat(i) => DoBeat(c, i)
    case HandleBeat(k) => DoHandleBeat(c, k)
    case RecvBeat(k) => DoRecvBeat(c, k)
    case SendAppend(i, p) => DoSendAppend(c, i, p)
    case HandleAppend(k) => DoHandleAppend(c, k)
    case RecvAppend(k) => DoRecvAppend(c, k)
    case Propose(i, cmd) => DoPropose(c, i, cmd)
    case ApplyOne(i) => DoApply(c, i)
    case Restart(i) => DoRestart(c, i)
    case LoseVote(k) => c.(votes := c.votes - {k})
    case LoseBeat(k) => c.(beats := c.beats - {k})
    case LoseAppend(k) => c.(appends := c.appends - {k})
  }

  // ------------------------------------------------------------------ runs

  /** A run from the initial cluster: states[k] goes to states[k + 1] by acts[k]. */
  datatype Run = Run(states: seq<Cluster>, acts: seq<Action>)

  ghost predicate Valid(run: Run, n: nat) {
    && n >= 1
    && |run.states| == |run.acts| + 1
    && run.states[0] == Init(n)
    && forall k :: 0 <= k < |run.acts| ==> Follows(run, k)
  }

  ghost predicate Follows(run: Run, k: nat)
    requires |run.states| == |run.acts| + 1 && k < |run.acts|
  {
    && Sane(run.states[k])
    && Enabled(run.states[k], run.acts[k])
    && run.states[k + 1] == Do(run.states[k], run.acts[k])
  }

  /** No granted reply of an older election is counted by a candidate of a newer one. */
  predicate TimelyVote(c: Cluster, a: Action) {
    a.RecvVote? && a.vote.reply.Some? && a.vote.reply.value.granted && a.vote.cand < |c.nodes|
      && c.nodes[a.vote.cand].role == Candidate ==>
    a.vote.term == c.nodes[a.vote.cand].term
  }

  /** A heartbeat reply makes a node step down only to a term newer than its own. */
  predicate TimelyBeat(c: Cluster, a: Action) {
    a.RecvBeat? && a.beat.reply.Some? && a.beat.reply.value.term > a.beat.term && a.beat.from < |c.nodes| ==>
    a.beat.reply.value.term > c.nodes[a.beat.from].term
  }

  /** No follower accepts entries that end before an index it already acknowledged to that leader. */
  predicate InOrderAppend(c: Cluster, a: Action) {
    a.HandleAppend? && a.append.peer < |c.nodes| && a.append.args.entries != []
      && Accepts(c.nodes[a.append.peer], a.append.args) ==>
    AckOf(c.hist, a.append.args.term, a.append.peer) <= EndOf(a.append.args)
  }

  ghost predicate TimelyVotes(run: Run) {
    forall k :: 0 <= k < |run.acts| && k < |run.states| ==> TimelyVote(run.states[k], run.acts[k])
  }

  ghost predicate TimelyHeartbeats(run: Run) {
    forall k :: 0 <= k < |run.acts| && k < |run.states| ==> TimelyBeat(run.states[k], run.acts[k])
  }

  ghost predicate InOrderAppends(run: Run) {
    forall k :: 0 <= k < |run.acts| && k < |run.states| ==> InOrderAppend(run.states[k], run.acts[k])
  }

  /** At most one node has won each term. */
  ghost predicate OneWinner(h: History) {
    forall v, w :: v in h.wins && w in h.wins && v.term == w.term ==> v.node == w.node
  }
}
