/**
 The distributed run: workers register, task goroutines take them from the
 channel, call DoTask and retry with another worker on failure. A failed call
 may have had its effect, have it later, or never; an acknowledged one had it.
 */
module MrSchedule {
  import opened MrNames
  import opened MrPipeline
  import opened MrTasks

  datatype Phase = MapPhase | ReducePhase | Finished

  /** A task goroutine: waiting for a worker, inside the DoTask call, or done. */
  datatype Task = Waiting | Calling(worker: nat, attempt: nat, landed: bool) | Done

  /** A registration: in the channel, in the hands of a task, or given up after a failed call. */
  datatype Worker = Idle | Held(task: nat) | Dropped

  datatype Attempt = Attempt(phase: Phase, task: nat)

  datatype Master = Master(
    files: Files,
    phase: Phase,
    tasks: seq<Task>,
    workers: seq<Worker>,
    loose: map<nat, Attempt>,   // attempts whose effect may still land
    serial: nat,
    calls: nat,                 // DoTask calls made
    signals: nat,               // values received from or waiting in doneChan, this phase
    past: nat)                  // tasks of completed phases

  datatype Action =
    | Register
    | Grab(task: nat, worker: nat)
    | Land(attempt: nat)
    | Ok(task: nat)
    | Fail(task: nat)
    | NextPhase
    | Finish

  function Init(j: Job, fs: Files): Master {
    Master(fs, MapPhase, seq(|j.inputs|, _ => Waiting), [], map[], 0, 0, 0, 0)
  }

  ghost function Effect(fs: Files, j: Job, a: Attempt): Files
    requires j.nReduce >= 1 && AttemptOk(j, a)
  {
    if a.phase == MapPhase then MapEffect(fs, j, a.task) else ReduceEffect(fs, j, a.task)
  }

  predicate AttemptOk(j: Job, a: Attempt) {
    match a.phase
    case MapPhase => a.task < |j.inputs|
    case ReducePhase => a.task < j.nReduce
    case Finished => false
  }

  predicate Enabled(j: Job, w: Master, a: Action) {
    match a
    case Register => true
    case Grab(t, k) =>
      w.phase != Finished && t < |w.tasks| && w.tasks[t] == Waiting && k < |w.workers| && w.workers[k] == Idle
    case Land(x) => x in w.loose && AttemptOk(j, w.loose[x])
    case Ok(t) => t < |w.tasks| && w.tasks[t].Calling? && w.tasks[t].landed && w.tasks[t].worker < |w.workers|
    case Fail(t) => t < |w.tasks| && w.tasks[t].Calling? && w.tasks[t].worker < |w.workers|
    case NextPhase => w.phase == MapPhase && w.signals == |w.tasks|
    case Finish => w.phase == ReducePhase && w.signals == |w.tasks|
  }

  /** The call whose effect this is learns that it landed, if it is still waiting for it. */
  function MarkLanded(w: Master, x: nat): seq<Task>
    requires x in w.loose
  {
    var t := w.loose[x].task;
    if w.loose[x].phase == w.phase && t < |w.tasks| && w.tasks[t].Calling? && w.tasks[t].attempt == x then
      w.tasks[t := w.tasks[t].(landed := true)]
    else
      w.tasks
  }

  ghost function Do(j: Job, w: Master, a: Action): Master
    requires j.nReduce >= 1 && Enabled(j, w, a)
  {
    match a
    case Register => w.(workers := w.workers + [Idle])
    case Grab(t, k) =>
      w.(tasks := w.tasks[t := Calling(k, w.serial, false)], workers := w.workers[k := Held(t)],
         loose := w.loose[w.serial := Attempt(w.phase, t)], serial := w.serial + 1, calls := w.calls + 1)
    case Land(x) =>
      w.(files := Effect(w.files, j, w.loose[x]), tasks := MarkLanded(w, x), loose := w.loose - {x})
    case Ok(t) =>
      w.(tasks := w.tasks[t := Done], workers := w.workers[w.tasks[t].worker := Idle], signals := w.signals + 1)
    case Fail(t) =>
      w.(tasks := w.tasks[t := Waiting], workers := w.workers[w.tasks[t].worker := Dropped])
    case NextPhase =>
      w.(phase := ReducePhase, tasks := seq(j.nReduce, _ => Waiting), signals := 0, past := |w.tasks|)
    case Finish =>
      w.(phase := Finished, tasks := [], signals := 0, past := w.past + |w.tasks|,
         files := if OutputsPresent(w.files, j) then MergeEffect(w.files, j) else w.files)
  }

  // ------------------------------------------------------------- conservation

  function CountDone(ts: seq<Task>): nat {
    if ts == [] then 0 else (if ts[0] == Done then 1 else 0) + CountDone(ts[1..])
  }

  function CountCalling(ts: seq<Task>): nat {
    if ts == [] then 0 else (if ts[0].Calling? then 1 else 0) + CountCalling(ts[1..])
  }

  function CountDropped(ws: seq<Worker>): nat {
    if ws == [] then 0 else (if ws[0] == Dropped then 1 else 0) + CountDropped(ws[1..])
  }

  lemma {:induction false} TaskCounts(ts: seq<Task>, t: nat, s: Task)
    requires t < |ts|
    ensures CountDone(ts[t := s]) == CountDone(ts) + (if s == Done then 1 else 0) - (if ts[t] == Done then 1 else 0)
    ensures CountCalling(ts[t := s])
         == CountCalling(ts) + (if s.Calling? then 1 else 0) - (if ts[t].Calling? then 1 else 0)
  {
    if t == 0 {
      assert ts[0 := s][1..] == ts[1..];
    } else {
      TaskCounts(ts[1..], t - 1, s);
      assert ts[t := s][1..] == ts[1..][t - 1 := s];
    }
  }

  lemma {:induction false} DropCounts(ws: seq<Worker>, k: nat, s: Worker)
    requires k < |ws|
    ensures CountDropped(ws[k := s])
         == CountDropped(ws) + (if s == Dropped then 1 else 0) - (if ws[k] == Dropped then 1 else 0)
  {
    if k == 0 {
      assert ws[0 := s][1..] == ws[1..];
    } else {
      DropCounts(ws[1..], k - 1, s);
      assert ws[k := s][1..] == ws[1..][k - 1 := s];
    }
  }

  lemma {:induction false} CountBounds(ts: seq<Task>, ws: seq<Worker>)
    ensures CountDone(ts) + CountCalling(ts) <= |ts| && CountDropped(ws) <= |ws|
    decreases |ts| + |ws|
  {
    if ts != [] {
      CountBounds(ts[1..], ws);
    } else if ws != [] {
      CountBounds(ts, ws[1..]);
    }
  }

  lemma {:induction false} NewWorker(ws: seq<Worker>)
    ensures CountDropped(ws + [Idle]) == CountDropped(ws)
  {
    if ws != [] {
      NewWorker(ws[1..]);
      assert (ws + [Idle])[1..] == ws[1..] + [Idle];
    }
  }

  lemma {:induction false} AllWaiting(n: nat)
    ensures var ts := seq(n, _ => Waiting); CountDone(ts) == 0 && CountCalling(ts) == 0
  {
    if n > 0 {
      AllWaiting(n - 1);
      assert seq(n, _ => Waiting)[1..] == seq(n - 1, _ => Waiting);
    }
  }

  lemma {:induction false} AllDone(ts: seq<Task>)
    requires CountDone(ts) == |ts|
    ensures CountCalling(ts) == 0 && forall t :: 0 <= t < |ts| ==> ts[t] == Done
  {
    if ts != [] {
      CountBounds(ts[1..], []);
      AllDone(ts[1..]);
      assert forall t :: 1 <= t < |ts| ==> ts[t] == ts[1..][t - 1];
    }
  }

  lemma {:induction false} CountAll(ts: seq<Task>)
    requires forall t :: 0 <= t < |ts| ==> ts[t] == Done
    ensures CountDone(ts) == |ts|
  {
    if ts != [] {
      CountAll(ts[1..]);
    }
  }

  /** Each registration is idle, held by exactly the task that is calling it, or dropped. */
  ghost predicate TokensOk(w: Master) {
    && (forall t :: 0 <= t < |w.tasks| && w.tasks[t].Calling? ==>
          w.tasks[t].worker < |w.workers| && w.workers[w.tasks[t].worker] == Held(t))
    && (forall k :: 0 <= k < |w.workers| && w.workers[k].Held? ==>
          && w.workers[k].task < |w.tasks|
          && w.tasks[w.workers[k].task].Calling? && w.tasks[w.workers[k].task].worker == k)
  }

  /** Every call ended in a success, ended in a dropped worker, or is still out; each success signalled once. */
  ghost predicate CountsOk(w: Master) {
    && w.signals == CountDone(w.tasks)
    && w.calls == w.past + CountDone(w.tasks) + CountCalling(w.tasks) + CountDropped(w.workers)
  }

  ghost predicate PhaseOk(j: Job, w: Master) {
    match w.phase
    case MapPhase => |w.tasks| == |j.inputs| && w.past == 0
    case ReducePhase => |w.tasks| == j.nReduce && w.past == |j.inputs|
    case Finished => w.tasks == [] && w.past == |j.inputs| + j.nReduce
  }

  ghost predicate Booked(j: Job, w: Master) {
    TokensOk(w) && CountsOk(w) && PhaseOk(j, w)
  }

  lemma StepTokens(j: Job, w: Master, a: Action)
    requires j.nReduce >= 1 && Booked(j, w) && Enabled(j, w, a)
    ensures TokensOk(Do(j, w, a))
  {
    hide CountDone, CountCalling, CountDropped, MapEffect, ReduceEffect, MergeEffect, OutputsPresent, TokensOk;
    match a
    case Register => MoreWorkers(w, Do(j, w, a));
    case Grab(t, k) => GrabTokens(w, t, k, Do(j, w, a));
    case Land(x) => LandTokens(w, x, Do(j, w, a));
    case Ok(t) => GiveTokens(w, t, Done, Idle, Do(j, w, a));
    case Fail(t) => GiveTokens(w, t, Waiting, Dropped, Do(j, w, a));
    case NextPhase =>
      AllDone(w.tasks);
      FreshTokens(w, Do(j, w, a));
    case Finish =>
      AllDone(w.tasks);
      FreshTokens(w, Do(j, w, a));
  }

  lemma MoreWorkers(w: Master, w': Master)
    requires TokensOk(w) && w'.tasks == w.tasks && w'.workers == w.workers + [Idle]
    ensures TokensOk(w')
  {
  }

  lemma GrabTokens(w: Master, t: nat, k: nat, w': Master)
    requires TokensOk(w) && t < |w.tasks| && w.tasks[t] == Waiting && k < |w.workers| && w.workers[k] == Idle
    requires w'.tasks == w.tasks[t := Calling(k, w.serial, false)] && w'.workers == w.workers[k := Held(t)]
    ensures TokensOk(w')
  {
  }

  lemma LandTokens(w: Master, x: nat, w': Master)
    requires TokensOk(w) && x in w.loose && w'.tasks == MarkLanded(w, x) && w'.workers == w.workers
    ensures TokensOk(w')
  {
  }

  /** A task lets go of its worker. */
  lemma GiveTokens(w: Master, t: nat, task: Task, worker: Worker, w': Master)
    requires TokensOk(w) && t < |w.tasks| && w.tasks[t].Calling? && !task.Calling? && !worker.Held?
    requires w.tasks[t].worker < |w.workers|
    requires w'.tasks == w.tasks[t := task] && w'.workers == w.workers[w.tasks[t].worker := worker]
    ensures TokensOk(w')
  {
  }

  /** When no task holds a worker, new tasks may start. */
  lemma FreshTokens(w: Master, w': Master)
    requires TokensOk(w) && forall t :: 0 <= t < |w.tasks| ==> w.tasks[t] == Done
    requires w'.workers == w.workers && forall t :: 0 <= t < |w'.tasks| ==> w'.tasks[t] == Waiting
    ensures TokensOk(w')
  {
  }

  lemma StepCounts(j: Job, w: Master, a: Action)
    requires j.nReduce >= 1 && Booked(j, w) && Enabled(j, w, a)
    ensures CountsOk(Do(j, w, a))
  {
    hide CountDone, CountCalling, CountDropped, MapEffect, ReduceEffect, MergeEffect, OutputsPresent;
    match a
    case Register => NewWorker(w.workers);
    case Grab(t, k) =>
      TaskCounts(w.tasks, t, Calling(k, w.serial, false));
      DropCounts(w.workers, k, Held(t));
    case Land(x) =>
      var t := w.loose[x].task;
      if MarkLanded(w, x) != w.tasks {
        TaskCounts(w.tasks, t, w.tasks[t].(landed := true));
      }
    case Ok(t) =>
      TaskCounts(w.tasks, t, Done);
      DropCounts(w.workers, w.tasks[t].worker, Idle);
    case Fail(t) =>
      TaskCounts(w.tasks, t, Waiting);
      DropCounts(w.workers, w.tasks[t].worker, Dropped);
    case NextPhase =>
      AllDone(w.tasks);
      AllWaiting(j.nReduce);
    case Finish =>
      AllDone(w.tasks);
      AllWaiting(0);
      assert seq(0, _ => Waiting) == [];
  }

  lemma StepBooked(j: Job, w: Master, a: Action)
    requires j.nReduce >= 1 && Booked(j, w) && Enabled(j, w, a)
    ensures Booked(j, Do(j, w, a))
  {
    hide TokensOk, CountsOk;
    StepTokens(j, w, a);
    StepCounts(j, w, a);
  }

  // ---------------------------------------------------------- what the files hold

  /** A task whose effect is known to have landed. */
  predicate Settled(t: Task) {
    t == Done || (t.Calling? && t.landed)
  }

  /** base: the files the job was started over. */
  ghost predicate FilesOk(j: Job, base: Files, w: Master)
    requires j.nReduce >= 1
  {
    && (forall x :: x in w.loose ==> AttemptOk(j, w.loose[x]))
    && LeftAlone(w.files, base, j)
    && match w.phase
       case MapPhase =>
         && (forall x :: x in w.loose ==> w.loose[x].phase == MapPhase)
         && (forall t: nat :: t < |w.tasks| && t < |j.inputs| && Settled(w.tasks[t]) ==> MapDone(w.files, base, j, t))
       case ReducePhase =>
         && MapsDone(w.files, base, j, |j.inputs|)
         && (forall t: nat :: t < |w.tasks| && Settled(w.tasks[t]) ==> ReduceDone(w.files, base, j, t))
       case Finished =>
         && MapsDone(w.files, base, j, |j.inputs|)
         && ReducesDone(w.files, base, j, j.nReduce)
         && OutName(j.name) in w.files && w.files[OutName(j.name)] == FinalOutput(base, j)
  }

  lemma SameOutput(fs: Files, g: Files, base: Files, j: Job, r: nat)
    requires j.nReduce >= 1
    requires MergeName(j.name, r) in g <==> MergeName(j.name, r) in fs
    requires Content(g, MergeName(j.name, r)) == Content(fs, MergeName(j.name, r))
    ensures ReduceDone(g, base, j, r) <==> ReduceDone(fs, base, j, r)
  {
    hide MergeName, TaskOutput;
  }

  lemma LandMapOk(j: Job, base: Files, w: Master, x: nat)
    requires j.nReduce >= 1 && Booked(j, w) && FilesOk(j, base, w)
    requires Enabled(j, w, Land(x)) && w.loose[x].phase == MapPhase
    ensures FilesOk(j, base, Do(j, w, Land(x)))
  {
    hide MapEffect, MapDone, LeftAlone, ReduceDone, MergeName, ReduceName, OutName, FinalOutput, CountsOk, TokensOk;
    MapLands(w.files, base, j, w.loose[x].task);
    OutKept(w.files, j, w.loose[x].task);
    var g := MapEffect(w.files, j, w.loose[x].task);
    forall r: nat
      ensures ReduceDone(g, base, j, r) <==> ReduceDone(w.files, base, j, r)
    {
      assert MergeName(j.name, r) in g <==> MergeName(j.name, r) in w.files;
      SameOutput(w.files, g, base, j, r);
    }
  }

  lemma LandReduceOk(j: Job, base: Files, w: Master, x: nat)
    requires j.nReduce >= 1 && Booked(j, w) && FilesOk(j, base, w)
    requires Enabled(j, w, Land(x)) && w.loose[x].phase == ReducePhase
    ensures FilesOk(j, base, Do(j, w, Land(x)))
  {
    hide MapDone, LeftAlone, ReduceDone, MergeName, ReduceName, OutName, FinalOutput, CountsOk, TokensOk, GroupBy;
    ReduceLands(w.files, base, j, w.loose[x].task);
    NamesDistinct(j.name, 0, 0, w.loose[x].task);
  }

  /** Merge writes the final output and nothing else. */
  lemma FinishOk(j: Job, base: Files, w: Master)
    requires j.nReduce >= 1 && Booked(j, w) && FilesOk(j, base, w) && Enabled(j, w, Finish)
    ensures FilesOk(j, base, Do(j, w, Finish))
  {
    hide CountDone, MergeName, ReduceName, OutName, FinalOutput, CountDropped, CountCalling, Listing, LoadUpto,
         MapDone, LeftAlone, ReduceDone;
    AllDone(w.tasks);
    MergeGivesOutput(w.files, base, j);
    var g := MergeEffect(w.files, j);
    forall m: nat, r: nat
      ensures Content(g, ReduceName(j.name, m, r)) == Content(w.files, ReduceName(j.name, m, r))
    {
      NamesDistinct(j.name, m, r, r);
    }
    SameParts(w.files, g, base, j);
    forall r: nat | r < j.nReduce
      ensures ReduceDone(g, base, j, r)
    {
      assert ReduceDone(w.files, base, j, r);
      NamesDistinct(j.name, 0, 0, r);
      SameOutput(w.files, g, base, j, r);
    }
  }

  lemma StepFiles(j: Job, base: Files, w: Master, a: Action)
    requires j.nReduce >= 1 && Booked(j, w) && FilesOk(j, base, w) && Enabled(j, w, a)
    ensures FilesOk(j, base, Do(j, w, a))
  {
    hide MapDone, LeftAlone, ReduceDone, OutName, FinalOutput, CountDone, CountCalling, CountDropped;
    hide MapEffect, ReduceEffect;
    match a
    case Land(x) =>
      if w.loose[x].phase == MapPhase {
        LandMapOk(j, base, w, x);
      } else {
        LandReduceOk(j, base, w, x);
      }
    case NextPhase => AllDone(w.tasks);
    case Finish => FinishOk(j, base, w);
    case _ =>
  }

  // -------------------------------------------------------------------- runs

  datatype Run = Run(states: seq<Master>, acts: seq<Action>)

  ghost predicate Valid(run: Run, j: Job, fs: Files) {
    && j.nReduce >= 1
    && |run.states| == |run.acts| + 1
    && run.states[0] == Init(j, fs)
    && forall k :: 0 <= k < |run.acts| ==>
         Enabled(j, run.states[k], run.acts[k]) && run.states[k + 1] == Do(j, run.states[k], run.acts[k])
  }

  lemma {:induction false} RunOk(run: Run, j: Job, fs: Files, k: nat)
    requires Valid(run, j, fs) && k < |run.states|
    ensures Booked(j, run.states[k]) && FilesOk(j, fs, run.states[k])
  {
    hide Do, Enabled, MapDone, ReduceDone, MergeName, ReduceName, FinalOutput, Part;
    if k == 0 {
      AllWaiting(|j.inputs|);
    } else {
      RunOk(run, j, fs, k - 1);
      StepBooked(j, run.states[k - 1], run.acts[k - 1]);
      StepFiles(j, fs, run.states[k - 1], run.acts[k - 1]);
    }
  }

  /**
   A distributed job that finishes leaves the output a sequential run over the same
   files leaves, and late attempts cannot spoil it. Without leftovers of an earlier
   job that output is the meaning of the job.
   */
  lemma DistributedEqualsSequential(run: Run, j: Job, fs: Files, k: nat)
    requires Valid(run, j, fs) && k < |run.states| && run.states[k].phase == Finished
    ensures OutName(j.name) in run.states[k].files && OutName(j.name) in SequentialEffect(fs, j)
    ensures run.states[k].files[OutName(j.name)] == SequentialEffect(fs, j)[OutName(j.name)]
    ensures NoLeftovers(fs, j) ==> run.states[k].files[OutName(j.name)] == Meaning(j)
  {
    hide OutName, Meaning, SequentialEffect, MapsDone, ReducesDone, LeftAlone, FinalOutput, NoLeftovers;
    RunOk(run, j, fs, k);
    SequentialLeaves(fs, j);
    if NoLeftovers(fs, j) {
      CleanOutput(fs, j);
    }
  }

  /** DoTask calls never exceed tasks plus registrations. */
  lemma CallsAreBounded(run: Run, j: Job, fs: Files, k: nat)
    requires Valid(run, j, fs) && k < |run.states|
    ensures run.states[k].calls <= |j.inputs| + j.nReduce + |run.states[k].workers|
  {
    hide FilesOk, CountDone, CountCalling, CountDropped;
    RunOk(run, j, fs, k);
    CountBounds(run.states[k].tasks, run.states[k].workers);
  }

  /** A registration out of the channel and not given up is in the hands of exactly one task, which calls it. */
  lemma WorkersConserved(run: Run, j: Job, fs: Files, k: nat, v: nat, t: nat)
    requires Valid(run, j, fs) && k < |run.states|
    requires v < |run.states[k].workers| && t < |run.states[k].tasks|
    ensures var w := run.states[k];
      w.workers[v] == Held(t) <==> w.tasks[t].Calling? && w.tasks[t].worker == v
    ensures run.states[k].workers[v].Held? ==> run.states[k].workers[v].task < |run.states[k].tasks|
  {
    hide FilesOk, CountsOk;
    RunOk(run, j, fs, k);
  }

  /** Each task signals once: the phase's signals are all in exactly when each of its tasks succeeded. */
  lemma SignalsMeanAllDone(run: Run, j: Job, fs: Files, k: nat)
    requires Valid(run, j, fs) && k < |run.states|
    ensures var w := run.states[k];
      w.signals == |w.tasks| <==> forall t :: 0 <= t < |w.tasks| ==> w.tasks[t] == Done
  {
    hide FilesOk, CountDone, CountCalling, CountDropped;
    RunOk(run, j, fs, k);
    var w := run.states[k];
    if w.signals == |w.tasks| {
      AllDone(w.tasks);
    }
    if forall t :: 0 <= t < |w.tasks| ==> w.tasks[t] == Done {
      CountAll(w.tasks);
    }
  }

  /** No reduce task is handed out before every map task has succeeded with all its output in place. */
  lemma ReduceWaitsForMaps(run: Run, j: Job, fs: Files, k: nat)
    requires Valid(run, j, fs) && k < |run.acts| && run.acts[k].Grab? && run.states[k].phase == ReducePhase
    ensures run.states[k].past == |j.inputs|
    ensures forall m: nat, r: nat :: m < |j.inputs| && r < j.nReduce && Part(j, j.Emits(m), r) != [] ==>
      Content(run.states[k].files, ReduceName(j.name, m, r)) == Part(j, j.Emits(m), r)
  {
    hide ReduceName, Part, MergeName;
    RunOk(run, j, fs, k);
    forall m: nat, r: nat | m < |j.inputs| && r < j.nReduce && Part(j, j.Emits(m), r) != []
      ensures Content(run.states[k].files, ReduceName(j.name, m, r)) == Part(j, j.Emits(m), r)
    {
      assert MapDone(run.states[k].files, fs, j, m);
    }
  }

  // ------------------------------------------------------- finishing is possible

  function Last(run: Run): Master
    requires run.states != []
  {
    run.states[|run.states| - 1]
  }

  /** run' begins with run. */
  predicate Continues(run: Run, run': Run) {
    run.states <= run'.states && run.acts <= run'.acts
  }

  lemma Then(run: Run, j: Job, fs: Files, a: Action) returns (run': Run)
    requires Valid(run, j, fs) && run.states != [] && Enabled(j, Last(run), a)
    ensures j.nReduce >= 1 && Valid(run', j, fs) && run'.states != [] && Last(run') == Do(j, Last(run), a)
    ensures Continues(run, run')
  {
    hide Do, Enabled;
    run' := Run(run.states + [Do(j, Last(run), a)], run.acts + [a]);
    forall k | 0 <= k < |run'.acts|
      ensures Enabled(j, run'.states[k], run'.acts[k]) && run'.states[k + 1] == Do(j, run'.states[k], run'.acts[k])
    {
      if k < |run.acts| {
        assert Enabled(j, run.states[k], run.acts[k]) && run.states[k + 1] == Do(j, run.states[k], run.acts[k]);
      }
    }
  }

  /** Worker v is idle, and the first t tasks of the phase are done. */
  predicate Swept(w: Master, phase: Phase, v: nat, t: nat) {
    && w.phase == phase && v < |w.workers| && w.workers[v] == Idle
    && t <= |w.tasks| && forall k :: 0 <= k < t ==> w.tasks[k] == Done
  }

  /** If task t is out on a call, the call fails. */
  lemma GivesUp(run: Run, j: Job, fs: Files, phase: Phase, v: nat, t: nat) returns (run': Run)
    requires Valid(run, j, fs) && run.states != [] && Swept(Last(run), phase, v, t)
    requires t < |Last(run).tasks| && Last(run).tasks[t].Calling?
    ensures Valid(run', j, fs) && run'.states != [] && Continues(run, run') && Swept(Last(run'), phase, v, t)
    ensures |Last(run').tasks| == |Last(run).tasks| && Last(run').tasks[t] == Waiting
  {
    hide FilesOk, CountsOk, PhaseOk;
    RunOk(run, j, fs, |run.states| - 1);
    hide Valid;
    run' := Then(run, j, fs, Fail(t));
  }

  /** Worker v does task t. */
  lemma DoesTask(run: Run, j: Job, fs: Files, phase: Phase, v: nat, t: nat) returns (run': Run)
    requires Valid(run, j, fs) && run.states != [] && Swept(Last(run), phase, v, t) && phase != Finished
    requires t < |Last(run).tasks| && Last(run).tasks[t] == Waiting && AttemptOk(j, Attempt(phase, t))
    ensures Valid(run', j, fs) && run'.states != [] && Continues(run, run') && Swept(Last(run'), phase, v, t + 1)
    ensures |Last(run').tasks| == |Last(run).tasks|
  {
    hide Valid, Effect;
    var x := Last(run).serial;
    run' := Then(run, j, fs, Grab(t, v));
    run' := Then(run', j, fs, Land(x));
    run' := Then(run', j, fs, Ok(t));
  }

  lemma {:induction false} AllTasks(run: Run, j: Job, fs: Files, phase: Phase, v: nat, t: nat) returns (run': Run)
    requires Valid(run, j, fs) && run.states != [] && Swept(Last(run), phase, v, t) && phase != Finished
    ensures Valid(run', j, fs) && run'.states != [] && Continues(run, run')
    ensures Swept(Last(run'), phase, v, |Last(run').tasks|)
    decreases |Last(run).tasks| - t
  {
    hide FilesOk, TokensOk, CountsOk;
    RunOk(run, j, fs, |run.states| - 1);
    hide Valid;
    if t == |Last(run).tasks| {
      run' := run;
    } else {
      run' := run;
      if Last(run').tasks[t].Calling? {
        run' := GivesUp(run', j, fs, phase, v, t);
      }
      if Last(run').tasks[t] == Waiting {
        run' := DoesTask(run', j, fs, phase, v, t);
      }
      run' := AllTasks(run', j, fs, phase, v, t + 1);
    }
  }

  /** With an idle worker a phase can be brought to its end. */
  lemma PhaseEnds(run: Run, j: Job, fs: Files, phase: Phase, v: nat) returns (run': Run)
    requires Valid(run, j, fs) && run.states != [] && Swept(Last(run), phase, v, 0) && phase != Finished
    ensures Valid(run', j, fs) && run'.states != [] && Continues(run, run') && Swept(Last(run'), phase, v, 0)
    ensures Last(run').signals == |Last(run').tasks|
  {
    run' := AllTasks(run, j, fs, phase, v, 0);
    SignalsMeanAllDone(run', j, fs, |run'.states| - 1);
  }

  lemma MapsEnd(run: Run, j: Job, fs: Files, v: nat) returns (run': Run)
    requires Valid(run, j, fs) && run.states != [] && Swept(Last(run), MapPhase, v, 0)
    ensures Valid(run', j, fs) && run'.states != [] && Continues(run, run') && Swept(Last(run'), ReducePhase, v, 0)
  {
    hide Valid;
    run' := PhaseEnds(run, j, fs, MapPhase, v);
    run' := Then(run', j, fs, NextPhase);
  }

  /** Whatever has failed, got lost or is still out: every run of every job has a continuation that finishes. */
  lemma EveryRunCanFinish(run: Run, j: Job, fs: Files) returns (run': Run)
    requires Valid(run, j, fs)
    ensures Valid(run', j, fs) && run'.states != [] && Continues(run, run') && Last(run').phase == Finished
  {
    run' := run;
    if Last(run').phase != Finished {
      run' := Then(run', j, fs, Register);
      hide Valid;
      var v := |Last(run').workers| - 1;
      if Last(run').phase == MapPhase {
        run' := MapsEnd(run', j, fs, v);
      }
      run' := PhaseEnds(run', j, fs, ReducePhase, v);
      run' := Then(run', j, fs, Finish);
    }
  }
}
