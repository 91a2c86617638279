/**
 Raft logs as values: the term checks, the truncating merge and the two scans
 behind fast log backtracking, with the facts that need nothing but logs.
 */
module RaftLog {

  /** Whatever the service asks Raft to replicate; Raft never looks inside. */
  type Payload(==, !new)

  datatype Command = NilCommand | Command(payload: Payload)

  datatype Entry = Entry(term: nat, cmd: Command)

  type Log = seq<Entry>

  /** The dummy entry every log holds at index 0. */
  const SENTINEL := Entry(0, NilCommand)

  function LastTerm(log: Log): nat
    requires log != []
  {
    log[|log| - 1].term
  }

  /** Index 0 has term 0; an index outside the log has term -1. */
  function TermAt(log: Log, i: int): int {
    if i == 0 then 0 else if i < 0 || i >= |log| then -1 else log[i].term
  }

  /** The election restriction: a log that ends in (lastTerm, lastIndex) may replace `log`. */
  predicate UpToDate(lastIndex: int, lastTerm: int, log: Log)
    requires log != []
  {
    lastTerm > LastTerm(log) || (lastTerm == LastTerm(log) && lastIndex >= |log| - 1)
  }

  /** a is ahead of b, so that its owner must not vote for the owner of b. */
  ghost predicate Ahead(a: Log, b: Log)
    requires a != [] && b != []
  {
    !UpToDate(|b| - 1, LastTerm(b), a)
  }

  ghost predicate NonDecreasing(log: Log) {
    forall i, j :: 0 <= i <= j < |log| ==> log[i].term <= log[j].term
  }

  /** The shape of every log: the sentinel, then entries of positive, never falling terms. */
  ghost predicate Shape(log: Log) {
    && log != []
    && log[0] == SENTINEL
    && NonDecreasing(log)
    && forall i :: 1 <= i < |log| ==> log[i].term >= 1
  }

  /** Being ahead is a strict order of logs: a later last term decides, then length, so extensions are ahead. */
  lemma AheadIsOrder(a: Log, b: Log, c: Log)
    requires a != [] && b != [] && c != [] && NonDecreasing(a)
    ensures !(Ahead(a, b) && Ahead(b, a))
    ensures Ahead(a, b) && Ahead(b, c) ==> Ahead(a, c)
    ensures LastTerm(a) > LastTerm(b) ==> Ahead(a, b)
    ensures b <= a && b != a ==> Ahead(a, b)
    ensures LastTerm(a) == LastTerm(b) && |a| > |b| ==> Ahead(a, b)
    ensures LastTerm(a) == LastTerm(b) && |a| == |b| ==> !Ahead(a, b) && !Ahead(b, a)
  {
    if b <= a && b != a {
      assert a[|b| - 1] == b[|b| - 1];
      assert a[|b| - 1].term <= a[|a| - 1].term;
    }
  }

  /** Both logs reach index k and are the same up to and including it. */
  ghost predicate Agree(a: Log, b: Log, k: int) {
    0 <= k < |a| && k < |b| && a[..k + 1] == b[..k + 1]
  }

  lemma AgreeDown(a: Log, b: Log, k: int, j: int)
    requires Agree(a, b, k)
    requires 0 <= j <= k
    ensures Agree(a, b, j)
  {
    assert a[..j + 1] == a[..k + 1][..j + 1];
    assert b[..j + 1] == b[..k + 1][..j + 1];
  }

  lemma AgreeJoin(a: Log, b: Log, c: Log, k: int)
    requires Agree(a, b, k) && Agree(b, c, k)
    ensures Agree(a, c, k)
  {
  }

  lemma AgreeAt(a: Log, b: Log, k: int, i: int)
    requires Agree(a, b, k)
    requires 0 <= i <= k
    ensures a[i] == b[i]
  {
    assert a[i] == a[..k + 1][i];
    assert b[i] == b[..k + 1][i];
  }

  /** A log agrees with every extension of it, all the way. */
  lemma PrefixAgrees(a: Log, b: Log)
    requires a != [] && a <= b
    ensures Agree(a, b, |a| - 1)
  {
    assert a[..|a|] == a;
  }

  // ---------------------------------------------------------------- merging

  /** How many leading positions of a and b carry the same term. */
  function TermRun(a: Log, b: Log): (k: nat)
    ensures k <= |a| && k <= |b|
    ensures forall i :: 0 <= i < k ==> a[i].term == b[i].term
    ensures k < |a| && k < |b| ==> a[k].term != b[k].term
  {
    if a != [] && b != [] && a[0].term == b[0].term then 1 + TermRun(a[1..], b[1..]) else 0
  }

  function Clamped(log: Log, start: int): (at: nat)
    ensures at <= |log|
  {
    if start < 0 then 0 else if start > |log| then |log| else start
  }

  /** The truncating merge: keep what matches by term, then take the rest from the sender. */
  function Sync(log: Log, start: int, entries: Log): Log {
    if entries == [] then
      log
    else
      var at := Clamped(log, start);
      var k := TermRun(log[at..], entries);
      log[..at + k] + entries[k..]
  }

  /** With nothing known about the two logs, the merge still has the sender's terms. */
  lemma SyncTerms(log: Log, prev: int, entries: Log)
    requires 0 <= prev < |log| && entries != []
    ensures var out := Sync(log, prev + 1, entries);
      && |out| == prev + 1 + |entries|
      && (forall i :: 0 <= i <= prev ==> out[i] == log[i])
      && (forall i :: prev < i < |out| ==> out[i].term == entries[i - prev - 1].term)
  {
    var at := prev + 1;
    var k := TermRun(log[at..], entries);
    var out := Sync(log, at, entries);
    assert out == log[..at + k] + entries[k..];
    forall i | prev < i < |out|
      ensures out[i].term == entries[i - at].term
    {
      if i - at < k {
        assert log[at..][i - at] == log[i];
      }
    }
  }

  /** From position `at` on, exactly k entries of the log have the terms of the batch, one by one. */
  ghost predicate AgreesFor(log: Log, at: nat, entries: Log, k: int) {
    && 0 <= k <= |entries| && at + k <= |log|
    && (forall x :: at <= x < at + k ==> log[x].term == entries[x - at].term)
    && (k < |entries| && at + k < |log| ==> log[at + k].term != entries[k].term)
  }

  /** For any start, even outside the log, the merge keeps the log as far as it agrees and goes on with the batch. */
  lemma SyncAnyStart(log: Log, start: int, entries: Log)
    requires entries != []
    ensures var at := if start < 0 then 0 else if start < |log| then start else |log|;
      exists k :: AgreesFor(log, at, entries, k) && Sync(log, start, entries) == log[..at + k] + entries[k..]
  {
    hide TermRun;
    var at := Clamped(log, start);
    var k := TermRun(log[at..], entries);
    forall x | at <= x < at + k
      ensures log[x].term == entries[x - at].term
    {
      assert log[at..][x - at] == log[x];
    }
    assert k < |entries| && at + k < |log| ==> log[at..][k] == log[at + k];
    assert AgreesFor(log, at, entries, k);
    assert Sync(log, start, entries) == log[..at + k] + entries[k..];
  }

  lemma SyncShape(log: Log, prev: int, entries: Log)
    requires Shape(log)
    requires 0 <= prev < |log|
    requires NonDecreasing(entries)
    requires forall i :: 0 <= i < |entries| ==> entries[i].term >= 1 && entries[i].term >= log[prev].term
    ensures Shape(Sync(log, prev + 1, entries))
  {
    hide TermRun, Sync;
    var out := Sync(log, prev + 1, entries);
    if entries == [] {
      assert out == log by { SyncNothing(log, prev + 1); }
    } else {
      SyncTerms(log, prev, entries);
      forall i, j | 0 <= i <= j < |out|
        ensures out[i].term <= out[j].term
      {
        if j > prev && i <= prev {
          assert log[i].term <= log[prev].term;
        }
      }
    }
  }

  lemma SyncNothing(log: Log, start: int)
    ensures Sync(log, start, []) == log
  {
  }

  // ------------------------------------------------------- logs of one term

  /** The logs that the leader of each term has built so far. */
  type TermLogs = map<nat, Log>

  /** Entry i of the log came, with everything before it, from the leader of its term. */
  ghost predicate MatchesAt(log: Log, tl: TermLogs, i: int)
    requires 0 <= i < |log|
  {
    log[i].term in tl && Agree(log, tl[log[i].term], i)
  }

  ghost predicate Matches(log: Log, tl: TermLogs) {
    && log != []
    && log[0] == SENTINEL
    && forall i :: 1 <= i < |log| ==> MatchesAt(log, tl, i)
  }

  /** Leaders only append: every term log of tl is a prefix of the one in tl'. */
  ghost predicate Grows(tl: TermLogs, tl': TermLogs) {
    forall t :: t in tl ==> t in tl' && tl[t] <= tl'[t]
  }

  lemma MatchesGrows(log: Log, tl: TermLogs, tl': TermLogs)
    requires Matches(log, tl)
    requires Grows(tl, tl')
    ensures Matches(log, tl')
  {
    forall i | 1 <= i < |log|
      ensures MatchesAt(log, tl', i)
    {
      assert MatchesAt(log, tl, i);
      var t := log[i].term;
      assert tl[t] <= tl'[t];
      assert tl'[t][..i + 1] == tl[t][..i + 1];
    }
  }

  /** The Log Matching Property of two logs: same term at k, same log up to k. */
  lemma LogMatching(a: Log, b: Log, tl: TermLogs, k: int)
    requires Matches(a, tl) && Matches(b, tl)
    requires 0 <= k < |a| && k < |b|
    requires a[k].term == b[k].term
    ensures Agree(a, b, k)
  {
    if k == 0 {
      assert a[..1] == [a[0]] && b[..1] == [b[0]];
    } else {
      assert MatchesAt(a, tl, k) && MatchesAt(b, tl, k);
    }
  }

  lemma MatchesPrefix(log: Log, tl: TermLogs, n: int)
    requires Matches(log, tl)
    requires 1 <= n <= |log|
    ensures Matches(log[..n], tl)
  {
    var p := log[..n];
    forall i | 1 <= i < |p|
      ensures MatchesAt(p, tl, i)
    {
      assert MatchesAt(log, tl, i);
      assert p[..i + 1] == log[..i + 1];
    }
  }

  /**
   An accepted, non-empty batch leaves exactly the sender's log up to the end of
   the batch: the merge keeps the receiver's own entries only where they are the
   sender's entries.
   */
  lemma SyncIsLeaderPrefix(log: Log, leader: Log, tl: TermLogs, prev: int, entries: Log)
    requires Matches(log, tl) && Matches(leader, tl)
    requires 0 <= prev < |log| && prev + |entries| < |leader|
    requires log[prev].term == leader[prev].term
    requires entries == leader[prev + 1..prev + 1 + |entries|]
    requires entries != []
    ensures Sync(log, prev + 1, entries) == leader[..prev + 1 + |entries|]
  {
    var k := TermRun(log[prev + 1..], entries);
    var last := prev + k;
    assert log[last].term == leader[last].term by {
      if k > 0 {
        assert log[prev + 1..][k - 1] == log[last];
        assert entries[k - 1] == leader[last];
      }
    }
    LogMatching(log, leader, tl, last);
    Splice(log, leader, prev, k, entries);
  }

  lemma Splice(log: Log, leader: Log, prev: int, k: nat, entries: Log)
    requires 0 <= prev && k <= |entries| && prev + |entries| < |leader|
    requires entries == leader[prev + 1..prev + 1 + |entries|]
    requires Agree(log, leader, prev + k)
    ensures log[..prev + 1 + k] + entries[k..] == leader[..prev + 1 + |entries|]
  {
    assert entries[k..] == leader[prev + 1 + k..prev + 1 + |entries|];
  }

  // ------------------------------------------------------ fast backtracking

  /** The first index of the run of equal terms that ends at i (the follower's scan). */
  function ConflictStart(log: Log, i: nat, ct: int): (r: nat)
    requires i < |log|
    requires TermAt(log, i) == ct
    ensures r <= i
    ensures forall j :: r <= j <= i ==> TermAt(log, j) == ct
    ensures r > 0 ==> TermAt(log, r - 1) != ct
  {
    if i > 0 && TermAt(log, i - 1) == ct then ConflictStart(log, i - 1, ct) else i
  }

  /** The leader's scan for the last entry of term ct, from index i down to 1; -1 if it gives up. */
  function ScanBack(log: Log, ct: int, i: int): (r: int)
    requires i < |log|
    ensures r == -1 || (1 <= r <= i && log[r].term == ct)
    decreases i
  {
    if i < 1 then -1
    else if log[i].term == ct then i
    else if log[i].term < ct then -1
    else ScanBack(log, ct, i - 1)
  }

  /** Giving up at the first smaller term is right, because terms never fall. */
  lemma {:induction false} ScanBackFindsLast(log: Log, ct: int, i: int)
    requires NonDecreasing(log)
    requires i < |log|
    ensures var r := ScanBack(log, ct, i);
      && (r == -1 <==> forall j :: 1 <= j <= i ==> log[j].term != ct)
      && (r != -1 ==> forall j :: r < j <= i ==> log[j].term != ct)
    decreases i
  {
    if i >= 1 && log[i].term > ct {
      ScanBackFindsLast(log, ct, i - 1);
    }
  }

  /** What a follower with this log reports when it refuses (ConflictTerm, ConflictIndex). */
  datatype Conflict = Conflict(term: int, index: int)

  predicate Refuses(log: Log, prev: int, prevTerm: int) {
    prev > |log| - 1 || (prev >= 0 && TermAt(log, prev) != prevTerm)
  }

  function ConflictOf(log: Log, prev: int, prevTerm: int): Conflict
    requires Refuses(log, prev, prevTerm)
  {
    if prev > |log| - 1 then Conflict(-1, |log|)
    else var ct := TermAt(log, prev); Conflict(ct, ConflictStart(log, prev, ct))
  }

  /** The leader's nextIndex after a refusal. */
  function BackUp(log: Log, c: Conflict): (next: int)
    ensures next >= 1
  {
    var last := ScanBack(log, c.term, |log| - 1);
    var n := if c.term == -1 || last == -1 then c.index else last + 1;
    if n < 1 then 1 else n
  }

  /** A call is refused iff its previous index lies past the log or holds another term there. */
  lemma RefusesIff(log: Log, prev: int, prevTerm: int)
    requires Shape(log)
    ensures Refuses(log, prev, prevTerm) <==> prev >= |log| || (prev >= 0 && log[prev].term != prevTerm)
  {
  }

  /** Backing up lands behind the last entry of the reported term, or else on the reported index, and never below 1. */
  lemma BackUpLands(log: Log, c: Conflict)
    requires NonDecreasing(log)
    ensures var next := BackUp(log, c);
      if c.term != -1 && exists i :: 1 <= i < |log| && log[i].term == c.term then
        2 <= next <= |log| && log[next - 1].term == c.term && forall j :: next <= j < |log| ==> log[j].term != c.term
      else
        next == if c.index < 1 then 1 else c.index
  {
    ScanBackFindsLast(log, c.term, |log| - 1);
  }

  /** Where an attempt refused at prev leaves the next one. */
  ghost predicate BacksUpTo(leader: Log, follower: Log, prev: int, next: int) {
    if prev >= |follower| then
      next == |follower|
    else
      && 1 <= next <= prev
      && ((exists i :: 1 <= i < |leader| && leader[i].term == follower[prev].term) ==>
            Agree(leader, follower, next - 1) && !Agree(leader, follower, next))
      && ((forall i :: 1 <= i < |leader| ==> leader[i].term != follower[prev].term) ==>
            follower[next].term == follower[prev].term != follower[next - 1].term)
  }

  /**
   Fast backtracking is exact. A refused attempt at `prev` is followed by one at
   BackUp - 1 that is strictly lower, that never drops below an index on which
   the two logs agree. Against a log that is too short it is the last index of that
   log; when the leader holds the term found there it is exactly the last index on
   which they agree; otherwise it lies just before all of that term.
   */
  lemma BackUpIsExact(leader: Log, follower: Log, tl: TermLogs, prev: int)
    requires Shape(leader) && Shape(follower)
    requires Matches(leader, tl) && Matches(follower, tl)
    requires 0 <= prev < |leader|
    requires Refuses(follower, prev, TermAt(leader, prev))
    ensures
      var c := ConflictOf(follower, prev, TermAt(leader, prev));
      var next := BackUp(leader, c);
      && 1 <= next <= prev
      && (forall k :: Agree(leader, follower, k) ==> k <= next - 1)
      && BacksUpTo(leader, follower, prev, next)
  {
    var c := ConflictOf(follower, prev, TermAt(leader, prev));
    var next := BackUp(leader, c);
    if prev < |follower| {
      assert prev >= 1;
      if ScanBack(leader, c.term, |leader| - 1) == -1 {
        ScanBackFindsLast(leader, c.term, |leader| - 1);
        LeaderLacksTerm(leader, follower, prev, c);
      } else {
        LeaderHoldsTerm(leader, follower, tl, prev, c);
      }
    }
  }

  lemma LeaderLacksTerm(leader: Log, follower: Log, prev: int, c: Conflict)
    requires Shape(leader) && Shape(follower)
    requires 1 <= prev < |leader| && prev < |follower|
    requires Refuses(follower, prev, TermAt(leader, prev))
    requires c == ConflictOf(follower, prev, TermAt(leader, prev))
    requires forall j :: 1 <= j <= |leader| - 1 ==> leader[j].term != c.term
    ensures 1 <= c.index <= prev
    ensures follower[c.index].term == c.term != follower[c.index - 1].term
    ensures forall k :: Agree(leader, follower, k) ==> k <= c.index - 1
  {
    assert TermAt(follower, c.index) == c.term;
    forall k | Agree(leader, follower, k)
      ensures k <= c.index - 1
    {
      if k >= c.index {
        AgreeAt(leader, follower, k, c.index);
      }
    }
  }

  lemma LeaderHoldsTerm(leader: Log, follower: Log, tl: TermLogs, prev: int, c: Conflict)
    requires Shape(leader) && Shape(follower)
    requires Matches(leader, tl) && Matches(follower, tl)
    requires 1 <= prev < |leader| && prev < |follower|
    requires follower[prev].term != leader[prev].term
    requires c.term == follower[prev].term
    requires ScanBack(leader, c.term, |leader| - 1) != -1
    ensures var last := ScanBack(leader, c.term, |leader| - 1);
      && last < prev
      && Agree(leader, follower, last)
      && (forall k :: Agree(leader, follower, k) ==> k <= last)
  {
    hide Agree;
    var last := ScanBack(leader, c.term, |leader| - 1);
    ScanBackFindsLast(leader, c.term, |leader| - 1);
    assert MatchesAt(leader, tl, last) && MatchesAt(follower, tl, prev);
    var whole := tl[c.term];
    AgreeAt(follower, whole, prev, prev);
    if last >= prev {
      AgreeAt(leader, whole, last, prev);
      assert false;
    }
    AgreeDown(follower, whole, prev, last);
    AgreeJoin(leader, whole, follower, last);
    LastAgreed(leader, follower, prev, last, c.term);
  }

  /** Past the leader's last entry of the term the follower still has that term. */
  lemma LastAgreed(leader: Log, follower: Log, prev: int, last: int, ct: int)
    requires NonDecreasing(follower) && 1 <= last < prev < |follower| && prev < |leader|
    requires Agree(leader, follower, last) && leader[last].term == ct == follower[prev].term
    requires forall j :: last < j < |leader| ==> leader[j].term != ct
    ensures forall k :: Agree(leader, follower, k) ==> k <= last
  {
    AgreeAt(leader, follower, last, last);
    assert follower[last + 1].term == ct;
    forall k | Agree(leader, follower, k)
      ensures k <= last
    {
      if k > last {
        AgreeAt(leader, follower, k, last + 1);
      }
    }
  }

  /** The whole retry loop against a follower whose log stands still: it ends. */
  ghost function Settle(leader: Log, follower: Log, tl: TermLogs, next: nat): (r: nat)
    requires Shape(leader) && Shape(follower)
    requires Matches(leader, tl) && Matches(follower, tl)
    requires 1 <= next <= |leader|
    ensures 1 <= r <= next
    ensures Agree(leader, follower, r - 1)
    ensures forall k :: Agree(leader, follower, k) && k <= next - 1 ==> k <= r - 1
    decreases next
  {
    var prev := next - 1;
    if Refuses(follower, prev, TermAt(leader, prev)) then
      BackUpIsExact(leader, follower, tl, prev);
      Settle(leader, follower, tl, BackUp(leader, ConflictOf(follower, prev, TermAt(leader, prev))))
    else
      LogMatching(leader, follower, tl, prev);
      next
  }
}
