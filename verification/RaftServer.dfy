/**
 The Raft server object: fields updated in place, region by region, with the
 source's loops. Each method is proved to take the object from one value of
 RaftNode.Node to the value that region's function gives.
 */
module RaftServer {
  import opened RaftLog
  import RN = RaftNode
  import opened RaftNode

  /** Stable storage. The encoded bytes are kept in decoded form. */
  class Persister {
    var raftstate: Disk
    var snapshot: seq<bv8>

    constructor ()
      ensures raftstate == Blank && snapshot == []
    {
      raftstate, snapshot := Blank, [];
    }

    method Copy() returns (np: Persister)
      ensures fresh(np) && np.raftstate == raftstate && np.snapshot == snapshot
    {
      np := new Persister();
      np.raftstate, np.snapshot := raftstate, snapshot;
    }

    method SaveRaftState(data: Disk)
      modifies this`raftstate
      ensures raftstate == data
    {
      raftstate := data;
    }

    method ReadRaftState() returns (data: Disk)
      ensures data == raftstate
    {
      data := raftstate;
    }
  }

  class Raft {
    const me: nat
    const n: nat
    const persister: Persister

    var role: Role
    var term: nat
    var votedFor: int
    var voteCount: nat
    var log: Log
    var commitIndex: int
    var lastApplied: int
    var nextIndex: seq<int>
    var matchIndex: seq<int>

    /** The object as a value. */
    ghost function View(): Node
      reads this, persister
    {
      Node(role, term, votedFor, voteCount, log, commitIndex, lastApplied, nextIndex, matchIndex, persister.raftstate)
    }

    /** What every region may rely on; RaftTheorems.LeaderIndicesValid and RaftTheorems.LogShape give it in runs. */
    ghost predicate Ready()
      reads this
    {
      && me < n
      && log != []
      && commitIndex >= 0
      && (role == Leader ==> |nextIndex| == n && |matchIndex| == n)
    }

    constructor Make(me: nat, n: nat, persister: Persister)
      requires me < n
      ensures this.me == me && this.n == n && this.persister == persister
      ensures Ready() && View() == Boot(persister.raftstate)
    {
      this.me, this.n, this.persister := me, n, persister;
      role, term, votedFor, voteCount := Follower, 0, NOBODY, 0;
      log := [SENTINEL];
      commitIndex, lastApplied := 0, 0;
      nextIndex, matchIndex := [], [];
      new;
      var data := persister.ReadRaftState();
      ReadPersist(data);
    }

    method ReadPersist(data: Disk)
      requires Ready() && role == Follower && term == 0 && votedFor == NOBODY && log == [SENTINEL]
      modifies this`term, this`votedFor, this`log
      ensures Ready()
      ensures match data
        case Blank => term == 0 && votedFor == NOBODY && log == [SENTINEL]
        case Saved(t, v, l) => term == t && votedFor == v && log == if l == [] then [SENTINEL] else l
    {
      match data {
        case Blank =>
        case Saved(t, v, l) =>
          term := t;
          votedFor := v;
          if |l| == 0 {
            log := [SENTINEL];
          } else {
            log := l;
          }
      }
    }

    method Persist()
      modifies persister`raftstate
      ensures View() == RN.Persist(old(View()))
    {
      persister.SaveRaftState(Saved(term, votedFor, log));
    }

    method StepDownLocked(t: nat)
      requires Ready()
      modifies this, persister
      ensures Ready() && View() == StepDown(old(View()), t)
    {
      if t > term {
        term := t;
      }
      votedFor := NOBODY;
      role := Follower;
      voteCount := 0;
      Persist();
    }

    method BecomeLeaderLocked()
      requires Ready()
      modifies this, persister
      ensures Ready() && View() == BecomeLeader(old(View()), me, n)
    {
      Persist();
      var last := |log| - 1;
      var next, match_ := [], [];
      var i := 0;
      while i < n
        invariant 0 <= i <= n && |next| == |match_| == i
        invariant forall p :: 0 <= p < i ==> next[p] == last + 1 && match_[p] == 0
      {
        next, match_ := next + [last + 1], match_ + [0];
        i := i + 1;
      }
      match_ := match_[me := last];
      next := next[me := last + 1];
      role, nextIndex, matchIndex := Leader, next, match_;
      assert nextIndex == seq(n, _ => last + 1);
      assert matchIndex == seq(n, p => if p == me then last else 0);
    }

    method StartElection()
      requires Ready()
      modifies this, persister
      ensures Ready() && View() == RN.StartElection(old(View()), me, n)
    {
      term := term + 1;
      role := Candidate;
      votedFor := me;
      voteCount := 1;
      Persist();
      if voteCount > n / 2 {
        BecomeLeaderLocked();
      }
    }

    method RequestVote(a: VoteArgs) returns (r: VoteReply)
      requires Ready()
      modifies this, persister
      ensures Ready() && (View(), r) == RN.RequestVote(old(View()), a)
    {
      r := VoteReply(term, false);
      if a.term < term {
        return;
      } else if a.term > term {
        StepDownLocked(a.term);
      }
      var upToDate := a.lastTerm > log[|log| - 1].term
                   || (a.lastTerm == log[|log| - 1].term && a.lastIndex >= |log| - 1);
      if (votedFor == NOBODY || votedFor == a.cand) && upToDate {
        votedFor := a.cand;
        r := VoteReply(term, true);
        Persist();
      }
    }

    method OnVoteReply(electionTerm: nat, r: VoteReply)
      requires Ready()
      modifies this, persister
      ensures Ready() && View() == RN.OnVoteReply(old(View()), me, n, electionTerm, r)
    {
      if r.term > term {
        StepDownLocked(r.term);
        return;
      }
      if r.granted {
        voteCount := voteCount + 1;
        if voteCount > n / 2 && role == Candidate && term == electionTerm {
          BecomeLeaderLocked();
        }
      }
    }

    method Heartbeat(t: nat) returns (r: BeatReply)
      requires Ready()
      modifies this, persister
      ensures Ready() && (View(), r) == RN.Heartbeat(old(View()), t)
    {
      r := BeatReply(term, false);
      if t < term {
        return;
      }
      if t > term {
        term := t;
        votedFor := NOBODY;
      }
      if role != Follower {
        role := Follower;
      }
      Persist();
      r := BeatReply(term, true);
    }

    method OnHeartbeatReply(sent: nat, r: BeatReply)
      requires Ready()
      modifies this, persister
      ensures Ready() && View() == OnBeatReply(old(View()), sent, r)
    {
      if r.term > sent {
        StepDownLocked(r.term);
      }
    }

    /** Skips what matches, cuts at the first mismatch, appends the rest. */
    method SyncLocked(start: int, entries: Log)
      modifies this`log
      ensures log == Sync(old(log), start, entries)
    {
      hide TermRun, Sync;
      if |entries| == 0 {
        SyncNothing(log, start);
        return;
      }
      var at := start;
      if at < 0 {
        at := 0;
      }
      if at > |log| {
        at := |log|;
      }
      var i, j := SkipMatching(log, at, entries);
      SyncFrom(log, start, entries);
      AppendNothing(log[..i], entries, j);
      log := log[..i];
      if j < |entries| {
        log := log + entries[j..];
      }
    }

    /** The consistency check, with the hint for the leader when it fails. */
    method CheckPrev(prev: int, prevTerm: int) returns (refused: bool, c: Conflict)
      requires log != []
      ensures refused == Refuses(log, prev, prevTerm)
      ensures c == if refused then ConflictOf(log, prev, prevTerm) else Conflict(0, 0)
    {
      if prev > |log| - 1 {
        return true, Conflict(-1, |log|);
      }
      if prev >= 0 && TermAt(log, prev) != prevTerm {
        var i := FirstOfTerm(prev);
        return true, Conflict(TermAt(log, prev), i);
      }
      return false, Conflict(0, 0);
    }

    method FollowCommitLocked(leaderCommit: int)
      requires Ready()
      modifies this`commitIndex
      ensures Ready() && View() == FollowCommit(old(View()), leaderCommit)
    {
      if leaderCommit > commitIndex {
        var max := |log| - 1;
        if leaderCommit < max {
          max := leaderCommit;
        }
        commitIndex := max;
      }
    }

    method AppendEntries(a: AppendArgs) returns (r: AppendReply)
      requires Ready()
      modifies this, persister
      ensures Ready() && (View(), r) == RN.AppendEntries(old(View()), a)
    {
      hide Sync, Refuses, ConflictOf;
      r := AppendReply(term, false, Conflict(0, 0));
      if a.term < term {
        return;
      }
      if a.term > term {
        StepDownLocked(a.term);
      } else if role != Follower {
        role := Follower;
      }
      var refused, conflict := CheckPrev(a.prev, a.prevTerm);
      if refused {
        r := r.(conflict := conflict);
        return;
      }
      SyncNonEmpty(log, a.prev + 1, a.entries);
      SyncLocked(a.prev + 1, a.entries);
      r := AppendReply(term, true, Conflict(0, 0));
      Persist();
      FollowCommitLocked(a.commit);
    }

    /** The backward scan for the first index of the conflicting term. */
    method FirstOfTerm(prev: nat) returns (i: nat)
      requires prev < |log|
      ensures i == ConflictStart(log, prev, TermAt(log, prev))
    {
      var ct := TermAt(log, prev);
      i := prev;
      while i > 0 && TermAt(log, i - 1) == ct
        invariant 0 <= i <= prev && TermAt(log, i) == ct
        invariant ConflictStart(log, prev, ct) == ConflictStart(log, i, ct)
      {
        i := i - 1;
      }
    }

    method BuildAppend(peer: nat) returns (a: AppendArgs)
      requires Ready() && role == Leader && peer < n
      requires NextFor(View(), peer) <= |log|
      modifies this`nextIndex
      ensures Ready() && View() == ClampNext(old(View()), peer)
      ensures a == RN.BuildAppend(old(View()), me, peer)
    {
      var next := nextIndex[peer];
      if next < 1 {
        next := 1;
        nextIndex := nextIndex[peer := 1];
      }
      a := AppendArgs(term, me, next - 1, TermAt(log, next - 1), log[next..], commitIndex);
      assert nextIndex == old(nextIndex)[peer := next];
    }

    method OnAppendReply(peer: nat, a: AppendArgs, r: AppendReply)
      requires Ready() && peer < n
      modifies this, persister
      ensures Ready() && View() == RN.OnAppendReply(old(View()), me, peer, a, r)
    {
      if r.term > term {
        StepDownLocked(r.term);
        return;
      }
      if term != a.term || role != Leader {
        return;
      }
      if r.success {
        var end := a.prev + |a.entries|;
        if end > matchIndex[peer] {
          matchIndex := matchIndex[peer := end];
          nextIndex := nextIndex[peer := end + 1];
        }
        TryAdvanceCommitLocked();
        return;
      }
      var next: int;
      if r.conflict.term == -1 {
        next := r.conflict.index;
      } else {
        var last := LastOfTerm(r.conflict.term);
        next := if last != -1 then last + 1 else r.conflict.index;
      }
      if next < 1 {
        next := 1;
      }
      nextIndex := nextIndex[peer := next];
    }

    /** The leader's scan for the last entry of a term; it gives up at the first smaller one. */
    method LastOfTerm(ct: int) returns (last: int)
      ensures last == ScanBack(log, ct, |log| - 1)
    {
      last := -1;
      var i := |log| - 1;
      while i >= 1
        invariant -1 <= i < |log|
        invariant last == -1 && ScanBack(log, ct, |log| - 1) == ScanBack(log, ct, i)
      {
        if log[i].term == ct {
          last := i;
          return;
        }
        if log[i].term < ct {
          return;
        }
        i := i - 1;
      }
    }

    method TryAdvanceCommitLocked()
      requires Ready() && role == Leader
      modifies this`commitIndex
      ensures Ready() && commitIndex == CommitFrom(old(View()), me, |log| - 1)
    {
      ghost var s := View();
      var N := |log| - 1;
      while N > commitIndex
        invariant N < |log| && commitIndex == s.commitIndex
        invariant CommitFrom(s, me, |log| - 1) == CommitFrom(s, me, N)
        decreases N - commitIndex
      {
        if log[N].term == term {
          var count := 1;
          var i := 0;
          while i < n
            invariant 0 <= i <= n && count == 1 + CountMatch(matchIndex, me, N, i)
          {
            if i != me && matchIndex[i] >= N {
              count := count + 1;
            }
            i := i + 1;
          }
          if count > n / 2 {
            commitIndex := N;
            break;
          }
        }
        N := N - 1;
      }
    }

    method Start(cmd: Command) returns (index: int, t: nat, isLeader: bool)
      requires Ready()
      modifies this, persister
      ensures Ready() && View() == RN.Propose(old(View()), me, cmd)
      ensures t == term && isLeader == (old(role) == Leader)
      ensures isLeader ==> index == |old(log)| && log == old(log) + [Entry(term, cmd)]
      ensures !isLeader ==> index == -1
    {
      if role != Leader {
        return -1, term, false;
      }
      log := log + [Entry(term, cmd)];
      index, t, isLeader := |log| - 1, term, true;
      Persist();
      matchIndex := matchIndex[me := index];
      nextIndex := nextIndex[me := index + 1];
    }

    /** One turn of the applier: the next committed entry that is present, if any. */
    method ApplyNext() returns (sent: bool, m: ApplyMsg)
      requires Ready() && lastApplied >= 0
      modifies this`lastApplied
      ensures Ready() && sent == CanApply(old(View()))
      ensures sent ==> m == NextMsg(old(View())) && View() == old(View()).(lastApplied := m.index)
      ensures !sent ==> View() == old(View())
    {
      m := ApplyMsg(0, NilCommand);
      if lastApplied >= commitIndex || lastApplied + 1 >= |log| {
        return false, m;
      }
      lastApplied := lastApplied + 1;
      return true, ApplyMsg(lastApplied, log[lastApplied].cmd);
    }
  }

  /** The scan that skips entries the log already has. */
  method SkipMatching(log: Log, at: nat, entries: Log) returns (i: nat, j: nat)
    requires at <= |log|
    ensures j == TermRun(log[at..], entries) && i == at + j
  {
    hide TermRun;
    i, j := at, 0;
    assert entries[0..] == entries;
    while i < |log| && j < |entries| && log[i].term == entries[j].term
      invariant at <= i <= |log| && 0 <= j <= |entries| && i == at + j
      invariant TermRun(log[at..], entries) == j + TermRun(log[i..], entries[j..])
    {
      RunGoesOn(log, entries, i, j);
      i := i + 1;
      j := j + 1;
    }
    RunEnds(log, entries, i, j);
  }

  lemma SyncNonEmpty(log: Log, start: int, entries: Log)
    requires log != []
    ensures Sync(log, start, entries) != []
  {
  }

  lemma SyncFrom(log: Log, start: int, entries: Log)
    requires entries != []
    ensures var at := Clamped(log, start); var k := TermRun(log[at..], entries);
            Sync(log, start, entries) == log[..at + k] + entries[k..]
  {
    hide TermRun, Clamped;
  }

  lemma AppendNothing(a: Log, b: Log, k: nat)
    requires k <= |b|
    ensures k == |b| ==> a + b[k..] == a
  {
  }

  lemma RunGoesOn(log: Log, entries: Log, i: nat, j: nat)
    requires i < |log| && j < |entries| && log[i].term == entries[j].term
    ensures TermRun(log[i..], entries[j..]) == 1 + TermRun(log[i + 1..], entries[j + 1..])
  {
    assert log[i..][1..] == log[i + 1..] && entries[j..][1..] == entries[j + 1..];
  }

  lemma RunEnds(log: Log, entries: Log, i: nat, j: nat)
    requires i <= |log| && j <= |entries|
    requires i == |log| || j == |entries| || log[i].term != entries[j].term
    ensures TermRun(log[i..], entries[j..]) == 0
  {
  }
}
