/**
 Acknowledged effects survive crashes. One server name of the labrpc network,
 the test harness that crashes and restarts it, and the RPCs under way. Killed
 instances are not stopped: they go on running and persisting, but into a
 Persister that has been superseded.
 */
module LabrpcCrash {

  /** Any value a server persists. */
  type Data(==, !new)

  /** Everything ever saved along the line a Persister was copied down; its last element is the content. */
  type Trail = seq<Data>

  datatype Stage =
    | Dispatched               // the request was handed to the server object
    | Handled(trail: Trail)    // its handler returned; what was persisted by then
    | Confirmed(trail: Trail)  // the server was still registered after that; the reply is on its way

  datatype Call = Call(server: nat, stage: Stage)

  /** Where the harness stands in crash1 and start1. */
  datatype Harness =
    | Idle                     // the instance, if any, is registered
    | Deleted                  // DeleteServer done
    | Superseded               // the first copy of the Persister is in place
    | Emptied(read: Trail)     // a blank Persister is in place, the old content in a variable
    | Crashed                  // crash1 is over
    | Renewed                  // start1 has installed the Persister for the next instance
    | Made(server: nat)        // Make has read it; the server is not registered yet

  datatype World = World(
    registered: int,           // Network.servers[i], -1 for nil
    persisters: map<nat, Trail>,
    persisterOf: map<nat, nat>,
    saved: nat,                // config.saved[i]
    harness: Harness,
    calls: map<nat, Call>,
    acked: set<Trail>)         // what the handlers of calls that returned true had persisted

  datatype Action =
    | Dispatch(id: nat)
    | Handle(id: nat, saves: Trail)
    | Confirm(id: nat)
    | Return(id: nat)
    | Fail(id: nat)
    | Save(server: nat, d: Data)
    | Delete
    | CopySaved(p: nat)
    | Empty(p: nat)
    | Refill
    | Renew(p: nat)
    | Make(server: nat)
    | Register

  /** Before the first start1: nothing runs, nothing is stored. */
  function Init(): World {
    World(-1, map[0 := []], map[], 0, Crashed, map[], {})
  }

  /** What a restart would be given. */
  function Current(w: World): Trail {
    if w.harness.Emptied? then w.harness.read else if w.saved in w.persisters then w.persisters[w.saved] else []
  }

  predicate Enabled(w: World, a: Action) {
    match a
    case Dispatch(id) => w.registered >= 0 && id !in w.calls
    case Handle(id, _) => id in w.calls && w.calls[id].stage.Dispatched? && w.calls[id].server in w.persisterOf
    case Confirm(id) => id in w.calls && w.calls[id].stage.Handled? && w.calls[id].server == w.registered
    case Return(id) => id in w.calls && w.calls[id].stage.Confirmed?
    case Fail(id) => id in w.calls
    case Save(s, _) => s in w.persisterOf
    case Delete => w.harness.Idle? || w.harness.Crashed?
    case CopySaved(p) => w.harness.Deleted? && p !in w.persisters
    case Empty(p) => w.harness.Superseded? && p !in w.persisters
    case Refill => w.harness.Emptied?
    case Renew(p) => w.harness.Crashed? && p !in w.persisters
    case Make(s) => w.harness.Renewed? && s !in w.persisterOf
    case Register => w.harness.Made?
  }

  /** A running instance, registered or killed, persists into the Persister it was made with. */
  function SaveTo(w: World, s: nat, more: Trail): World
    requires s in w.persisterOf
  {
    var p := w.persisterOf[s];
    w.(persisters := w.persisters[p := (if p in w.persisters then w.persisters[p] else []) + more])
  }

  function TrailOf(w: World, s: nat): Trail
    requires s in w.persisterOf
  {
    if w.persisterOf[s] in w.persisters then w.persisters[w.persisterOf[s]] else []
  }

  function Do(w: World, a: Action): World
    requires Enabled(w, a)
  {
    match a
    case Dispatch(id) => w.(calls := w.calls[id := Call(w.registered, Dispatched)])
    case Handle(id, saves) =>
      var s := w.calls[id].server;
      var w1 := SaveTo(w, s, saves);
      w1.(calls := w.calls[id := Call(s, Handled(TrailOf(w1, s)))])
    case Confirm(id) => w.(calls := w.calls[id := Call(w.calls[id].server, Confirmed(w.calls[id].stage.trail))])
    case Return(id) => w.(calls := w.calls - {id}, acked := w.acked + {w.calls[id].stage.trail})
    case Fail(id) => w.(calls := w.calls - {id})
    case Save(s, d) => SaveTo(w, s, [d])
    case Delete => w.(registered := -1, harness := Deleted)
    case CopySaved(p) => w.(persisters := w.persisters[p := Current(w)], saved := p, harness := Superseded)
    case Empty(p) => w.(persisters := w.persisters[p := []], saved := p, harness := Emptied(Current(w)))
    case Refill => w.(persisters := w.persisters[w.saved := w.harness.read], harness := Crashed)
    case Renew(p) => w.(persisters := w.persisters[p := Current(w)], saved := p, harness := Renewed)
    case Make(s) => w.(persisterOf := w.persisterOf[s := w.saved], harness := Made(s))
    case Register => w.(registered := w.harness.server, harness := Idle)
  }

  // --------------------------------------------------------------- invariant

  /** While a server is registered, what it persists is what a restart would read. */
  ghost predicate LiveIsSaved(w: World) {
    && (w.registered >= 0 ==>
          w.harness.Idle? && w.registered in w.persisterOf && w.persisterOf[w.registered] == w.saved)
    && (w.harness.Made? ==> w.harness.server in w.persisterOf && w.persisterOf[w.harness.server] == w.saved)
    && (forall s :: s in w.persisterOf ==> w.persisterOf[s] in w.persisters)
    && w.saved in w.persisters
    && (w.harness.Emptied? ==> forall s :: s in w.persisterOf ==> w.persisterOf[s] != w.saved)
  }

  ghost predicate CallOk(w: World, k: Call) {
    match k.stage
    case Dispatched => k.server in w.persisterOf
    case Handled(t) => k.server in w.persisterOf && t <= TrailOf(w, k.server)
    case Confirmed(t) => t <= Current(w)
  }

  ghost predicate Ok(w: World) {
    && LiveIsSaved(w)
    && (forall id :: id in w.calls ==> CallOk(w, w.calls[id]))
    && (forall t :: t in w.acked ==> t <= Current(w))
  }

  /** No step shortens what a restart would read, nor any Persister an instance writes to. */
  lemma TrailsGrow(w: World, a: Action)
    requires LiveIsSaved(w) && Enabled(w, a)
    ensures LiveIsSaved(Do(w, a))
    ensures Current(w) <= Current(Do(w, a))
    ensures forall s :: s in w.persisterOf ==> s in Do(w, a).persisterOf && TrailOf(w, s) <= TrailOf(Do(w, a), s)
  {
  }

  lemma StepOk(w: World, a: Action)
    requires Ok(w) && Enabled(w, a)
    ensures Ok(Do(w, a))
  {
    hide LiveIsSaved, CallOk, Current;
    var w' := Do(w, a);
    TrailsGrow(w, a);
    forall id | id in w'.calls
      ensures CallOk(w', w'.calls[id])
    {
      CallStays(w, a, id);
    }
    forall t | t in w'.acked
      ensures t <= Current(w')
    {
      if t !in w.acked {
        ConfirmedIsCurrent(w, w.calls[a.id]);
      }
    }
  }

  lemma CallStays(w: World, a: Action, id: nat)
    requires LiveIsSaved(w) && Enabled(w, a) && id in Do(w, a).calls && (id in w.calls ==> CallOk(w, w.calls[id]))
    ensures CallOk(Do(w, a), Do(w, a).calls[id])
  {
    TrailsGrow(w, a);
  }

  lemma ConfirmedIsCurrent(w: World, k: Call)
    requires CallOk(w, k) && k.stage.Confirmed?
    ensures k.stage.trail <= Current(w)
  {
  }

  // -------------------------------------------------------------------- runs

  datatype Run = Run(states: seq<World>, acts: seq<Action>)

  ghost predicate Valid(run: Run) {
    && |run.states| == |run.acts| + 1
    && run.states[0] == Init()
    && forall k :: 0 <= k < |run.acts| ==>
         Enabled(run.states[k], run.acts[k]) && run.states[k + 1] == Do(run.states[k], run.acts[k])
  }

  lemma {:induction false} RunOk(run: Run, k: nat)
    requires Valid(run) && k < |run.states|
    ensures Ok(run.states[k])
  {
    hide Do, Enabled;
    if k > 0 {
      RunOk(run, k - 1);
      StepOk(run.states[k - 1], run.acts[k - 1]);
    }
  }

  lemma {:induction false} CurrentGrows(run: Run, j: nat, k: nat)
    requires Valid(run) && j <= k < |run.states|
    ensures Current(run.states[j]) <= Current(run.states[k])
  {
    hide Do, Enabled, Current, CallOk, LiveIsSaved, TrailOf;
    if j < k {
      CurrentGrows(run, j, k - 1);
      RunOk(run, k - 1);
      TrailsGrow(run.states[k - 1], run.acts[k - 1]);
    }
  }

  /** Whatever the handler of a call that returned true had persisted is in what any later instance boots from. */
  lemma AcknowledgedSurvives(run: Run, j: nat, k: nat, t: Trail)
    requires Valid(run) && j <= k < |run.acts| && t in run.states[j].acked && run.acts[k].Make?
    ensures run.acts[k].server in run.states[k + 1].persisterOf
    ensures t <= TrailOf(run.states[k + 1], run.acts[k].server)
  {
    RunOk(run, j);
    RunOk(run, k);
    CurrentGrows(run, j, k);
  }

  /** What a call carries was persisted by its handler: all its Persister had, and then all the handler saved. */
  lemma {:induction false} HandledAt(run: Run, k: nat, id: nat) returns (h: nat)
    requires Valid(run) && k < |run.states| && id in run.states[k].calls && !run.states[k].calls[id].stage.Dispatched?
    ensures h < k && h < |run.acts| && run.acts[h].Handle? && run.acts[h].id == id && id in run.states[h].calls
    ensures var s := run.states[h].calls[id].server;
      s in run.states[h].persisterOf
      && run.states[k].calls[id].stage.trail == TrailOf(run.states[h], s) + run.acts[h].saves
  {
    hide Current;
    var w, a := run.states[k - 1], run.acts[k - 1];
    if a.Handle? && a.id == id {
      h := k - 1;
      RunOk(run, h);
    } else {
      h := HandledAt(run, k - 1, id);
    }
  }

  /** What the handler of a call that returned true saved is, entire, in what any later instance boots from. */
  lemma SavesSurvive(run: Run, r: nat, k: nat, id: nat) returns (h: nat, at: nat)
    requires Valid(run) && r < k < |run.acts| && run.acts[r] == Return(id) && run.acts[k].Make?
    ensures h < r && run.acts[h].Handle? && run.acts[h].id == id
    ensures run.acts[k].server in run.states[k + 1].persisterOf
    ensures var boot, saves := TrailOf(run.states[k + 1], run.acts[k].server), run.acts[h].saves;
      at + |saves| <= |boot| && boot[at..at + |saves|] == saves
  {
    hide Current, TrailOf;
    h := HandledAt(run, r, id);
    var t := run.states[r].calls[id].stage.trail;
    AcknowledgedSurvives(run, r + 1, k, t);
    at := |t| - |run.acts[h].saves|;
    assert t[at..] == run.acts[h].saves;
  }

  /** The check after the handler is needed: a handler that ran on a killed instance leaves a trail no restart sees. */
  lemma UnconfirmedMayBeLost(d: Data) returns (run: Run, id: nat)
    ensures Valid(run)
    ensures var w := run.states[|run.acts|];
      id in w.calls && w.calls[id].stage.Handled? && !(w.calls[id].stage.trail <= Current(w))
  {
    hide Valid;
    id := 0;
    run := Begin();
    run := Then(run, Renew(1));
    run := Then(run, Make(0));
    run := Then(run, Register);
    run := Then(run, Dispatch(0));
    run := Then(run, Delete);
    run := Then(run, CopySaved(2));
    run := Then(run, Handle(0, [d]));
    assert Last(run).calls[0].stage.trail == [d];
    assert Current(Last(run)) == [];
  }

  function Last(run: Run): World
    requires run.states != []
  {
    run.states[|run.states| - 1]
  }

  lemma Begin() returns (run: Run)
    ensures Valid(run) && |run.states| == |run.acts| + 1 && Last(run) == Init()
  {
    run := Run([Init()], []);
  }

  lemma Then(run: Run, a: Action) returns (run': Run)
    requires Valid(run) && |run.states| == |run.acts| + 1 && Enabled(Last(run), a)
    ensures Valid(run') && |run'.states| == |run'.acts| + 1 && Last(run') == Do(Last(run), a)
    ensures run'.acts == run.acts + [a] && run'.states == run.states + [Last(run')]
  {
    hide Do, Enabled;
    run' := Run(run.states + [Do(Last(run), a)], run.acts + [a]);
  }

  /** A handler saves d, its call returns true, and the instance crashes. */
  lemma ReturnsThenCrashes(d: Data) returns (run: Run)
    ensures Valid(run) && |run.states| == |run.acts| + 1
    ensures [d] in Last(run).acked && Last(run).harness.Crashed? && 1 !in Last(run).persisterOf
    ensures 9 !in Last(run).persisters
  {
    hide Valid;
    run := Begin();
    run := Then(run, Renew(1));
    run := Then(run, Make(0));
    run := Then(run, Register);
    run := Then(run, Dispatch(0));
    run := Then(run, Handle(0, [d]));
    assert Last(run).calls[0].stage.trail == [d];
    run := Then(run, Confirm(0));
    run := Then(run, Return(0));
    run := CrashesWith(run, [d]);
  }

  lemma CrashesWith(run: Run, t: Trail) returns (run': Run)
    requires Valid(run) && |run.states| == |run.acts| + 1 && t in Last(run).acked && Last(run).harness.Idle?
    requires 1 !in Last(run).persisterOf && forall p :: p in Last(run).persisters ==> p < 5
    ensures Valid(run') && |run'.states| == |run'.acts| + 1 && t in Last(run').acked
    ensures Last(run').harness.Crashed? && 1 !in Last(run').persisterOf && 9 !in Last(run').persisters
  {
    hide Valid;
    run' := Then(run, Delete);
    run' := Then(run', CopySaved(5));
    run' := Then(run', Empty(6));
    run' := Then(run', Refill);
  }

  /** Calls do return, and instances do restart after them. */
  lemma ReturnedThenRestarted(d: Data) returns (run: Run, k: nat)
    ensures Valid(run) && |run.states| == |run.acts| + 1
    ensures k < |run.acts| && [d] in run.states[k].acked && run.acts[k].Make?
  {
    hide Valid;
    var r := ReturnsThenCrashes(d);
    r := Then(r, Renew(9));
    k := |r.acts|;
    run := Then(r, Make(1));
    assert run.states[k] == Last(r);
  }
}
