/**
 One Raft instance as a value: what each locked region does to the node's
 fields, its Persister and the reply it sends. The class in RaftServer.dfy runs
 the same regions in place; RaftCluster.dfy composes them into runs.
 */
module RaftNode {
  import opened RaftLog

  datatype Role = Follower | Candidate | Leader

  /** What the Persister holds: nothing yet, or the last persisted triple. */
  datatype Disk = Blank | Saved(term: nat, votedFor: int, log: Log)

  const NOBODY: int := -1

  datatype Node = Node(
    role: Role,
    term: nat,
    votedFor: int,
    voteCount: nat,
    log: Log,
    commitIndex: int,
    lastApplied: int,
    nextIndex: seq<int>,
    matchIndex: seq<int>,
    disk: Disk)

  datatype VoteArgs = VoteArgs(term: nat, cand: nat, lastIndex: int, lastTerm: int)
  datatype VoteReply = VoteReply(term: nat, granted: bool)
  datatype BeatReply = BeatReply(term: nat, ok: bool)
  datatype AppendArgs = AppendArgs(term: nat, leader: nat, prev: int, prevTerm: int, entries: Log, commit: int)
  datatype AppendReply = AppendReply(term: nat, success: bool, conflict: Conflict)
  datatype ApplyMsg = ApplyMsg(index: int, cmd: Command)

  /** The last index an AppendEntries call speaks about. */
  function EndOf(a: AppendArgs): int {
    a.prev + |a.entries|
  }

  predicate IsMajority(count: int, n: nat) {
    count > n / 2
  }

  // ------------------------------------------------------------ persistence

  function Persist(s: Node): Node {
    s.(disk := Saved(s.term, s.votedFor, s.log))
  }

  /** A fresh instance over what an earlier one persisted. */
  function Boot(disk: Disk): Node {
    match disk
    case Blank => Node(Follower, 0, NOBODY, 0, [SENTINEL], 0, 0, [], [], disk)
    case Saved(term, votedFor, log) =>
      Node(Follower, term, votedFor, 0, if log == [] then [SENTINEL] else log, 0, 0, [], [], disk)
  }

  // --------------------------------------------------------------- elections

  function StepDown(s: Node, term: nat): Node {
    Persist(s.(term := if term > s.term then term else s.term,
               votedFor := NOBODY, role := Follower, voteCount := 0))
  }

  function BecomeLeader(s: Node, me: nat, n: nat): Node
    requires s.log != []
    requires me < n
  {
    var last := |s.log| - 1;
    Persist(s).(role := Leader,
                nextIndex := seq(n, _ => last + 1),
                matchIndex := seq(n, p => if p == me then last else 0))
  }

  function StartElection(s: Node, me: nat, n: nat): Node
    requires s.log != []
    requires me < n
  {
    var s1 := Persist(s.(term := s.term + 1, role := Candidate, votedFor := me, voteCount := 1));
    if IsMajority(s1.voteCount, n) then BecomeLeader(s1, me, n) else s1
  }

  function RequestVote(s: Node, a: VoteArgs): (Node, VoteReply)
    requires s.log != []
  {
    if a.term < s.term then
      (s, VoteReply(s.term, false))
    else
      var s1 := if a.term > s.term then StepDown(s, a.term) else s;
      if (s1.votedFor == NOBODY || s1.votedFor == a.cand) && UpToDate(a.lastIndex, a.lastTerm, s1.log) then
        (Persist(s1.(votedFor := a.cand)), VoteReply(s1.term, true))
      else
        (s1, VoteReply(s.term, false))
  }

  /** A reply to the vote request of the election of `term`. */
  function OnVoteReply(s: Node, me: nat, n: nat, term: nat, r: VoteReply): Node
    requires s.log != []
    requires me < n
  {
    if r.term > s.term then
      StepDown(s, r.term)
    else if r.granted then
      var s1 := s.(voteCount := s.voteCount + 1);
      if IsMajority(s1.voteCount, n) && s1.role == Candidate && s1.term == term then
        BecomeLeader(s1, me, n)
      else
        s1
    else
      s
  }

  // -------------------------------------------------------------- heartbeats

  function Heartbeat(s: Node, term: nat): (Node, BeatReply) {
    if term < s.term then
      (s, BeatReply(s.term, false))
    else
      var s1 := if term > s.term then s.(term := term, votedFor := NOBODY) else s;
      (Persist(s1.(role := Follower)), BeatReply(s1.term, true))
  }

  /** A reply to a heartbeat that carried `sent`. The node's own term is not consulted. */
  function OnBeatReply(s: Node, sent: nat, r: BeatReply): Node {
    if r.term > sent then StepDown(s, r.term) else s
  }

  // ------------------------------------------------------------- replication

  function Propose(s: Node, me: nat, cmd: Command): Node
    requires s.role == Leader ==> me < |s.matchIndex| && me < |s.nextIndex|
  {
    if s.role != Leader then
      s
    else
      var log := s.log + [Entry(s.term, cmd)];
      Persist(s.(log := log)).(matchIndex := s.matchIndex[me := |log| - 1],
                               nextIndex := s.nextIndex[me := |log|])
  }

  function NextFor(s: Node, peer: nat): (next: int)
    requires peer < |s.nextIndex|
    ensures next >= 1 && next >= s.nextIndex[peer] && (next == 1 || next == s.nextIndex[peer])
  {
    if s.nextIndex[peer] < 1 then 1 else s.nextIndex[peer]
  }

  /** The sender repairs a next index below 1 before it reads the log. */
  function ClampNext(s: Node, peer: nat): Node
    requires peer < |s.nextIndex|
  {
    s.(nextIndex := s.nextIndex[peer := NextFor(s, peer)])
  }

  function BuildAppend(s: Node, me: nat, peer: nat): AppendArgs
    requires peer < |s.nextIndex|
    requires NextFor(s, peer) <= |s.log|
  {
    var next := NextFor(s, peer);
    AppendArgs(s.term, me, next - 1, TermAt(s.log, next - 1), s.log[next..], s.commitIndex)
  }

  function FollowCommit(s: Node, leaderCommit: int): Node {
    if leaderCommit > s.commitIndex then
      var last := |s.log| - 1;
      s.(commitIndex := if leaderCommit < last then leaderCommit else last)
    else
      s
  }

  /** The node an AppendEntries call of a current or newer term is judged by. */
  function Heed(s: Node, term: nat): Node {
    if term > s.term then StepDown(s, term) else s.(role := Follower)
  }

  predicate Accepts(s: Node, a: AppendArgs) {
    a.term >= s.term && !Refuses(s.log, a.prev, a.prevTerm)
  }

  /** The follower after a batch that passed the consistency check. */
  function Merged(s: Node, a: AppendArgs): Node {
    FollowCommit(Persist(Heed(s, a.term).(log := Sync(s.log, a.prev + 1, a.entries))), a.commit)
  }

  function AppendEntries(s: Node, a: AppendArgs): (Node, AppendReply) {
    if a.term < s.term then
      (s, AppendReply(s.term, false, Conflict(0, 0)))
    else if Refuses(s.log, a.prev, a.prevTerm) then
      (Heed(s, a.term), AppendReply(s.term, false, ConflictOf(s.log, a.prev, a.prevTerm)))
    else
      (Merged(s, a), AppendReply(a.term, true, Conflict(0, 0)))
  }

  /** Peers below `upto`, other than `me`, known to hold index N. */
  function CountMatch(match_: seq<int>, me: nat, N: int, upto: nat): nat
    requires upto <= |match_|
  {
    if upto == 0 then 0
    else CountMatch(match_, me, N, upto - 1) + if upto - 1 != me && match_[upto - 1] >= N then 1 else 0
  }

  predicate Commits(s: Node, me: nat, N: int)
    requires 0 <= N < |s.log|
  {
    s.log[N].term == s.term && IsMajority(1 + CountMatch(s.matchIndex, me, N, |s.matchIndex|), |s.matchIndex|)
  }

  /** The commit index the leader's downward scan from N settles on. */
  function CommitFrom(s: Node, me: nat, N: int): (c: int)
    requires N < |s.log|
    requires s.commitIndex >= 0
    ensures c == s.commitIndex || (s.commitIndex < c <= N && Commits(s, me, c))
    ensures forall j :: c < j <= N ==> !Commits(s, me, j)
    decreases N
  {
    if N <= s.commitIndex then s.commitIndex
    else if Commits(s, me, N) then N
    else CommitFrom(s, me, N - 1)
  }

  function Acknowledge(s: Node, peer: nat, end: int): Node
    requires peer < |s.matchIndex| && peer < |s.nextIndex|
  {
    if end > s.matchIndex[peer] then
      s.(matchIndex := s.matchIndex[peer := end], nextIndex := s.nextIndex[peer := end + 1])
    else
      s
  }

  function OnAppendReply(s: Node, me: nat, peer: nat, a: AppendArgs, r: AppendReply): Node
    requires s.role == Leader ==> peer < |s.matchIndex| && peer < |s.nextIndex|
    requires s.commitIndex >= 0
  {
    if r.term > s.term then
      StepDown(s, r.term)
    else if s.term != a.term || s.role != Leader then
      s
    else if r.success then
      var s1 := Acknowledge(s, peer, EndOf(a));
      s1.(commitIndex := CommitFrom(s1, me, |s1.log| - 1))
    else
      s.(nextIndex := s.nextIndex[peer := BackUp(s.log, r.conflict)])
  }

  // ---------------------------------------------------------------- applying

  predicate CanApply(s: Node) {
    0 <= s.lastApplied < s.commitIndex && s.lastApplied + 1 < |s.log|
  }

  function NextMsg(s: Node): ApplyMsg
    requires CanApply(s)
  {
    ApplyMsg(s.lastApplied + 1, s.log[s.lastApplied + 1].cmd)
  }

  // ------------------------------------------------------ facts of one node

  /** The Persister decodes to exactly the three fields that must survive. */
  ghost predicate Durable(s: Node) {
    && s.log != []
    && (s.disk == Saved(s.term, s.votedFor, s.log) ||
        (s.disk == Blank && s.term == 0 && s.votedFor == NOBODY && s.log == [SENTINEL]))
  }

  /** Terms never fall along the log, nor pass the node's own term. */
  ghost predicate WellShaped(s: Node) {
    Shape(s.log) && LastTerm(s.log) <= s.term
  }

  /** The leader's bookkeeping points into its own log. */
  ghost predicate IndicesValid(s: Node, n: nat) {
    && |s.nextIndex| == n && |s.matchIndex| == n
    && (forall p :: 0 <= p < n ==> 1 <= s.nextIndex[p] <= |s.log|)
    && (forall p :: 0 <= p < n ==> 0 <= s.matchIndex[p] < |s.log|)
  }

  ghost predicate NodeOk(s: Node, n: nat) {
    && Durable(s)
    && WellShaped(s)
    && s.commitIndex >= 0 && s.lastApplied >= 0
    && (s.role != Follower ==> s.term >= 1)
    && (s.role == Leader ==> IndicesValid(s, n))
  }

  /** A restart is a step that resets volatile fields and nothing else. */
  lemma RestartKeepsDurable(s: Node)
    requires Durable(s)
    ensures Boot(s.disk) == s.(role := Follower, voteCount := 0, commitIndex := 0, lastApplied := 0,
                               nextIndex := [], matchIndex := [])
  {
  }

  /** Whatever was saved, a booted node is an idle follower that has its dummy entry. */
  lemma BootIsIdle(disk: Disk)
    ensures var s := Boot(disk);
      && s.role == Follower && s.voteCount == 0 && s.commitIndex == 0 && s.lastApplied == 0 && s.disk == disk
      && s.log != [] && (disk.Saved? ==> s.term == disk.term && s.votedFor == disk.votedFor)
      && (if disk.Saved? && disk.log != [] then s.log == disk.log else |s.log| == 1 && s.log[0].term == 0)
      && (disk.Blank? ==> s.term == 0 && s.votedFor == NOBODY)
  {
  }

  /** CountMatch counts a set: the peers that hold N. */
  ghost function Holders(match_: seq<int>, me: nat, N: int, upto: nat): set<nat>
    requires upto <= |match_|
  {
    set p: nat | p < upto && p != me && match_[p] >= N
  }

  lemma {:induction false} CountIsCard(match_: seq<int>, me: nat, N: int, upto: nat)
    requires upto <= |match_|
    ensures CountMatch(match_, me, N, upto) == |Holders(match_, me, N, upto)|
  {
    if upto > 0 {
      CountIsCard(match_, me, N, upto - 1);
      var p := upto - 1;
      var less := Holders(match_, me, N, p);
      if p != me && match_[p] >= N {
        assert Holders(match_, me, N, upto) == less + {p};
      } else {
        assert Holders(match_, me, N, upto) == less;
      }
    }
  }
}
