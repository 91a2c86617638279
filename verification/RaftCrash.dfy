/**
 Crash and restart step by step. crash1 and start1 unregister the server, copy
 Persisters, blank one and fill it again, and make the new instance, while every
 instance that was ever made goes on writing to the Persister it was given. Each
 such run is a run of the world in which the restart is one step, the first copy.
 */
module RaftCrash {
  import opened RaftNode
  import opened RaftCluster
  import opened RaftKilled
  import opened RaftKilledSafety

  // ------------------------------------------------------------- the Persisters

  /** How far crash1 and start1 have come with a node. */
  datatype Stage = Up | Deleted | Superseded | Emptied(read: Disk) | Crashed | Renewed | Made

  /** The tester's side of it. An asleep node has no instance of its own. */
  datatype Desk = Desk(
    disks: map<nat, Disk>,        // the Persisters
    own: map<Instance, nat>,      // the Persister each instance was made with
    saved: seq<nat>,              // cfg.saved
    stage: seq<Stage>,
    asleep: seq<bool>)

  predicate Sized(d: Desk, n: nat) {
    |d.saved| == |d.stage| == |d.asleep| == n
  }

  /** What the next instance of node i will be given. */
  function Held(d: Desk, i: nat): Disk
    requires i < |d.saved| == |d.stage|
  {
    if d.stage[i].Emptied? then d.stage[i].read
    else if d.saved[i] in d.disks then d.disks[d.saved[i]]
    else Blank
  }

  /** The Persister a node keeps belongs to its running instance alone, or to nobody. */
  ghost predicate Apart(d: Desk, epochs: seq<nat>)
    requires Sized(d, |epochs|)
  {
    && (forall i :: 0 <= i < |epochs| ==> d.saved[i] in d.disks)
    && (forall i, j :: 0 <= i < j < |epochs| ==> d.saved[i] != d.saved[j])
    && (forall at :: at in d.own ==> d.own[at] in d.disks)
    && (forall at, i :: at in d.own && 0 <= i < |epochs| && d.own[at] == d.saved[i] ==>
          at == Instance(i, epochs[i]) && !d.asleep[i])
  }

  /** A running instance writes the Persister its node keeps, which holds what it wrote. */
  ghost predicate Running(d: Desk, epochs: seq<nat>, wrote: seq<Disk>)
    requires Sized(d, |epochs|) && |wrote| == |epochs|
  {
    forall i: nat :: i < |epochs| && !d.asleep[i] ==>
      && Instance(i, epochs[i]) in d.own && d.own[Instance(i, epochs[i])] == d.saved[i]
      && d.saved[i] in d.disks && d.disks[d.saved[i]] == wrote[i]
      && (d.stage[i].Up? || d.stage[i].Deleted? || d.stage[i].Made?)
  }

  ghost predicate DeskOk(d: Desk, epochs: seq<nat>, wrote: seq<Disk>, dead: set<Instance>) {
    && Sized(d, |epochs|) && |wrote| == |epochs|
    && Apart(d, epochs) && Running(d, epochs, wrote)
    && (forall at :: at in dead ==> at in d.own && at.node < |epochs| && at.epoch < epochs[at.node])
    && (forall i :: 0 <= i < |epochs| && (d.stage[i].Up? || d.stage[i].Made?) ==> !d.asleep[i])
    && (forall i: nat, e: nat :: i < |epochs| && Instance(i, e) in d.own ==>
          e < epochs[i] || (e == epochs[i] && !d.asleep[i]))
  }

  ghost predicate SameHeld(d: Desk, d': Desk, n: nat) {
    Sized(d, n) && Sized(d', n) && forall j: nat :: j < n && d.asleep[j] ==> Held(d', j) == Held(d, j)
  }

  lemma RunningWrites(d: Desk, epochs: seq<nat>, wrote: seq<Disk>, dead: set<Instance>, i: nat, x: Disk)
    requires DeskOk(d, epochs, wrote, dead) && i < |epochs| && !d.asleep[i]
    ensures var d' := d.(disks := d.disks[d.saved[i] := x]);
      DeskOk(d', epochs, wrote[i := x], dead) && SameHeld(d, d', |epochs|)
  {
  }

  lemma DeadWrites(d: Desk, epochs: seq<nat>, wrote: seq<Disk>, dead: set<Instance>, at: Instance, x: Disk)
    requires DeskOk(d, epochs, wrote, dead) && at in dead
    ensures at in d.own
    ensures var d' := d.(disks := d.disks[d.own[at] := x]);
      DeskOk(d', epochs, wrote, dead) && SameHeld(d, d', |epochs|)
  {
  }

  // ---------------------------------------------------------------- the machine

  /** The world with its Persisters; the slot of an asleep node in the cluster means nothing. */
  datatype Lab = Lab(w: World, d: Desk)

  datatype Step =
    | Act(m: Move)
    | Delete(i: nat)
    | CopySaved(i: nat, p: nat)
    | Empty(i: nat, p: nat)
    | Refill(i: nat)
    | Renew(i: nat, p: nat)
    | Make(i: nat)
    | Register(i: nat)

  const NOTHING := Boot(Blank)

  function Start(n: nat): Lab {
    Lab(Beginning(n),
        Desk(map i | i in Ids(n) :: Blank, map i | i in Ids(n) :: Instance(i, 0) := i,
             seq(n, i => i), seq(n, _ => Up), seq(n, _ => false)))
  }

  /** The node whose instance takes the step, if one does. */
  function Actor(a: Action): Option<nat> {
    match a
    case Elect(i) => Some(i)
    case HandleVote(k) => Some(k.peer)
    case RecvVote(k) => Some(k.cand)
    case Beat(i) => Some(i)
    case HandleBeat(k) => Some(k.peer)
    case RecvBeat(k) => Some(k.from)
    case SendAppend(i, _) => Some(i)
    case HandleAppend(k) => Some(k.peer)
    case RecvAppend(k) => Some(k.from)
    case Propose(i, _) => Some(i)
    case ApplyOne(i) => Some(i)
    case Restart(i) => Some(i)
    case _ => None
  }

  /** The instance that takes the step. */
  function Acting(w: World, m: Move): Option<Instance> {
    match m
    case Late(at, _) => Some(at)
    case Live(a) =>
      if Actor(a).Some? && Actor(a).value < |w.live.epochs| then
        Some(Instance(Actor(a).value, w.live.epochs[Actor(a).value]))
      else None
  }

  ghost predicate Ready(f: Lab) {
    WorldReady(f.w) && Sized(f.d, |f.w.live.nodes|)
  }

  predicate Awake(f: Lab, m: Move) {
    m.Live? ==>
      !m.a.Restart? && (Actor(m.a).Some? ==> Actor(m.a).value < |f.d.asleep| && !f.d.asleep[Actor(m.a).value])
  }

  /** The order in which crash1 and start1 go through their stages. */
  predicate DeskCan(d: Desk, s: Step) {
    && !s.Act? && s.i < |d.stage| == |d.saved| == |d.asleep| && d.saved[s.i] in d.disks
    && match s
       case Delete(i) => d.stage[i].Up? || d.stage[i].Crashed?
       case CopySaved(i, p) => d.stage[i].Deleted? && p !in d.disks
       case Empty(i, p) => d.stage[i].Superseded? && p !in d.disks
       case Refill(i) => d.stage[i].Emptied?
       case Renew(i, p) => d.stage[i].Crashed? && p !in d.disks
       case Make(i) => d.stage[i].Renewed? && d.asleep[i]
       case Register(i) => d.stage[i].Made?
  }

  ghost predicate CanDo(f: Lab, s: Step)
    requires Ready(f)
  {
    if s.Act? then MoveEnabled(f.w, s.m) && Awake(f, s.m) else DeskCan(f.d, s)
  }

  /** What the tester does; the epoch is that of the instance to be made. */
  function DeskDo(d: Desk, s: Step, epoch: nat): Desk
    requires DeskCan(d, s)
  {
    match s
    case Delete(i) => d.(stage := d.stage[i := Deleted])
    case CopySaved(i, p) =>
      d.(disks := d.disks[p := d.disks[d.saved[i]]], saved := d.saved[i := p], stage := d.stage[i := Superseded],
         asleep := d.asleep[i := true])
    case Empty(i, p) =>
      d.(disks := d.disks[p := Blank], saved := d.saved[i := p], stage := d.stage[i := Emptied(d.disks[d.saved[i]])])
    case Refill(i) => d.(disks := d.disks[d.saved[i] := d.stage[i].read], stage := d.stage[i := Crashed])
    case Renew(i, p) =>
      d.(disks := d.disks[p := d.disks[d.saved[i]]], saved := d.saved[i := p], stage := d.stage[i := Renewed])
    case Make(i) =>
      d.(own := d.own[Instance(i, epoch) := d.saved[i]], asleep := d.asleep[i := false], stage := d.stage[i := Made])
    case Register(i) => d.(stage := d.stage[i := Up])
  }

  /** What the acting instance's Persister holds after its step. */
  function DiskOf(w: World, at: Instance): Disk {
    if at in w.killed then w.killed[at].s.disk
    else if at.node < |w.live.nodes| then w.live.nodes[at.node].disk
    else Blank
  }

  function Write(d: Desk, at: Option<Instance>, w': World): Desk {
    if at.Some? && at.value in d.own then d.(disks := d.disks[d.own[at.value] := DiskOf(w', at.value)]) else d
  }

  /** The old instance is on its own from here; its node sleeps until the next one is made. */
  function PutToSleep(w: World, i: nat): World
    requires i < |w.live.nodes| && i < |w.live.epochs|
  {
    World(w.live.(nodes := w.live.nodes[i := NOTHING], epochs := w.live.epochs[i := w.live.epochs[i] + 1]),
          w.killed[Instance(i, w.live.epochs[i]) := NewlyKilled(w.live, i)])
  }

  ghost function Take(f: Lab, s: Step): Lab
    requires Ready(f) && CanDo(f, s)
  {
    match s
    case Act(m) => Lab(Next(f.w, m), Write(f.d, Acting(f.w, m), Next(f.w, m)))
    case CopySaved(i, p) => Lab(if f.d.asleep[i] then f.w else PutToSleep(f.w, i), DeskDo(f.d, s, 0))
    case Make(i) =>
      Lab(f.w.(live := f.w.live.(nodes := f.w.live.nodes[i := Boot(f.d.disks[f.d.saved[i]])])),
          DeskDo(f.d, s, f.w.live.epochs[i]))
    case _ => f.(d := DeskDo(f.d, s, 0))
  }

  // -------------------------------------------------------------- the world it is

  function Slots(d: Desk, nodes: seq<Node>): (ns: seq<Node>)
    requires Sized(d, |nodes|)
    ensures |ns| == |nodes|
    ensures forall i :: 0 <= i < |ns| ==> ns[i] == if d.asleep[i] then Boot(Held(d, i)) else nodes[i]
  {
    seq(|nodes|, i requires 0 <= i < |nodes| => if d.asleep[i] then Boot(Held(d, i)) else nodes[i])
  }

  /** The world a laboratory shows: an asleep node is the instance that will be made. */
  function Abs(f: Lab): World
    requires Sized(f.d, |f.w.live.nodes|)
  {
    f.w.(live := f.w.live.(nodes := Slots(f.d, f.w.live.nodes)))
  }

  function Wrote(nodes: seq<Node>): (ds: seq<Disk>)
    ensures |ds| == |nodes| && forall i :: 0 <= i < |ds| ==> ds[i] == nodes[i].disk
  {
    seq(|nodes|, i requires 0 <= i < |nodes| => nodes[i].disk)
  }

  ghost predicate LabOk(f: Lab) {
    && DeskOk(f.d, f.w.live.epochs, Wrote(f.w.live.nodes), f.w.killed.Keys)
    && EmptySlots(f.d.asleep, f.w.live.nodes)
  }

  ghost predicate EmptySlots(asleep: seq<bool>, nodes: seq<Node>) {
    forall i :: 0 <= i < |nodes| && i < |asleep| && asleep[i] ==> nodes[i] == NOTHING
  }

  // ------------------------------------------------------------- acting is local

  /** A step of one node does not look at the others. */
  ghost predicate Local(c: Cluster, ns: seq<Node>, a: Action)
    requires Sane(c) && Enabled(c, a) && Sane(c.(nodes := ns)) && |ns| == |c.nodes|
  {
    && Enabled(c.(nodes := ns), a) && |Do(c, a).nodes| == |c.nodes| && Do(c, a).epochs == c.epochs
    && (Actor(a).Some? ==> Actor(a).value < |ns|)
    && Do(c.(nodes := ns), a) == Do(c, a).(nodes :=
         if Actor(a).Some? then ns[Actor(a).value := Do(c, a).nodes[Actor(a).value]] else ns)
    && forall j: nat :: j < |ns| && Actor(a) != Some(j) ==> Do(c, a).nodes[j] == c.nodes[j]
  }

  lemma ElectionIsLocal(c: Cluster, ns: seq<Node>, a: Action)
    requires Sane(c) && Enabled(c, a) && Sane(c.(nodes := ns)) && |ns| == |c.nodes|
    requires a.Elect? || a.HandleVote? || a.RecvVote? || a.Beat? || a.HandleBeat? || a.RecvBeat?
    requires Actor(a).Some? ==> Actor(a).value < |ns| && ns[Actor(a).value] == c.nodes[Actor(a).value]
    ensures Local(c, ns, a)
  {
    hide NodeOk, StartElection, RequestVote, OnVoteReply, Heartbeat, OnBeatReply, RaiseAck, Others;
  }

  lemma OtherIsLocal(c: Cluster, ns: seq<Node>, a: Action)
    requires Sane(c) && Enabled(c, a) && Sane(c.(nodes := ns)) && |ns| == |c.nodes| && !a.Restart?
    requires !a.Elect? && !a.HandleVote? && !a.RecvVote? && !a.Beat? && !a.HandleBeat? && !a.RecvBeat?
    requires Actor(a).Some? ==> Actor(a).value < |ns| && ns[Actor(a).value] == c.nodes[Actor(a).value]
    ensures Local(c, ns, a)
  {
    hide NodeOk, BuildAppend, AppendEntries, OnAppendReply, RaftNode.Propose, NextMsg, CanApply, RaiseAck;
  }

  lemma ActsLocally(c: Cluster, ns: seq<Node>, a: Action)
    requires Sane(c) && Enabled(c, a) && Sane(c.(nodes := ns)) && |ns| == |c.nodes| && !a.Restart?
    requires Actor(a).Some? ==> Actor(a).value < |ns| && ns[Actor(a).value] == c.nodes[Actor(a).value]
    ensures Local(c, ns, a)
  {
    hide Sane, Enabled, Local;
    if a.Elect? || a.HandleVote? || a.RecvVote? || a.Beat? || a.HandleBeat? || a.RecvBeat? {
      ElectionIsLocal(c, ns, a);
    } else {
      OtherIsLocal(c, ns, a);
    }
  }

  // ---------------------------------------------------------- the tester's steps

  lemma NewStage(d: Desk, i: nat, st: Stage, epochs: seq<nat>, wrote: seq<Disk>, dead: set<Instance>)
    requires DeskOk(d, epochs, wrote, dead) && i < |epochs| && !st.Emptied? && !d.stage[i].Emptied?
    requires !d.asleep[i] ==> st.Up? || st.Deleted? || st.Made?
    requires d.asleep[i] ==> !st.Up? && !st.Made?
    ensures var d' := d.(stage := d.stage[i := st]); DeskOk(d', epochs, wrote, dead) && SameHeld(d, d', |epochs|)
  {
  }

  /** An asleep node gets a new Persister. */
  lemma NewSaved(d: Desk, i: nat, p: nat, x: Disk, st: Stage, epochs: seq<nat>, wrote: seq<Disk>, dead: set<Instance>)
    requires DeskOk(d, epochs, wrote, dead) && i < |epochs| && d.asleep[i] && p !in d.disks
    requires Held(d, i) == (if st.Emptied? then st.read else x) && !st.Up? && !st.Made?
    ensures var d' := d.(disks := d.disks[p := x], saved := d.saved[i := p], stage := d.stage[i := st]);
      DeskOk(d', epochs, wrote, dead) && SameHeld(d, d', |epochs|)
  {
  }

  lemma Refilled(d: Desk, i: nat, epochs: seq<nat>, wrote: seq<Disk>, dead: set<Instance>)
    requires DeskOk(d, epochs, wrote, dead) && i < |epochs| && d.stage[i].Emptied?
    ensures var d' := d.(disks := d.disks[d.saved[i] := d.stage[i].read], stage := d.stage[i := Crashed]);
      DeskOk(d', epochs, wrote, dead) && SameHeld(d, d', |epochs|)
  {
  }

  lemma SleepsWhile(d: Desk, i: nat, epochs: seq<nat>, wrote: seq<Disk>, dead: set<Instance>)
    requires DeskOk(d, epochs, wrote, dead) && i < |epochs|
    requires d.stage[i].Superseded? || d.stage[i].Crashed?
    ensures d.asleep[i]
  {
  }

  lemma WakesUp(d: Desk, i: nat, epochs: seq<nat>, wrote: seq<Disk>, dead: set<Instance>)
    requires DeskOk(d, epochs, wrote, dead) && i < |epochs| && (d.stage[i].Up? || d.stage[i].Made?)
    ensures !d.asleep[i]
  {
  }

  /** All but the first copy and Make leave running instances alone and what is held as it is. */
  lemma DeskStep(d: Desk, s: Step, epochs: seq<nat>, wrote: seq<Disk>, dead: set<Instance>)
    requires DeskOk(d, epochs, wrote, dead) && DeskCan(d, s) && !s.Make? && !(s.CopySaved? && !d.asleep[s.i])
    ensures DeskOk(DeskDo(d, s, 0), epochs, wrote, dead) && SameHeld(d, DeskDo(d, s, 0), |epochs|)
    ensures DeskDo(d, s, 0).asleep == d.asleep
  {
    assert |epochs| == |d.stage|;
    hide DeskOk, SameHeld;
    match s
    case Delete(i) => NewStage(d, i, Deleted, epochs, wrote, dead);
    case Register(i) =>
      WakesUp(d, i, epochs, wrote, dead);
      NewStage(d, i, Up, epochs, wrote, dead);
    case Refill(i) => Refilled(d, i, epochs, wrote, dead);
    case CopySaved(i, p) =>
      assert d.asleep[i := true] == d.asleep;
      NewSaved(d, i, p, d.disks[d.saved[i]], Superseded, epochs, wrote, dead);
    case Empty(i, p) =>
      SleepsWhile(d, i, epochs, wrote, dead);
      NewSaved(d, i, p, Blank, Emptied(d.disks[d.saved[i]]), epochs, wrote, dead);
    case Renew(i, p) =>
      SleepsWhile(d, i, epochs, wrote, dead);
      NewSaved(d, i, p, d.disks[d.saved[i]], Renewed, epochs, wrote, dead);
  }

  lemma CopyStep(d: Desk, i: nat, p: nat, epochs: seq<nat>, wrote: seq<Disk>, dead: set<Instance>)
    requires DeskOk(d, epochs, wrote, dead) && DeskCan(d, CopySaved(i, p)) && !d.asleep[i]
    ensures var d' := DeskDo(d, CopySaved(i, p), 0);
      && DeskOk(d', epochs[i := epochs[i] + 1], wrote[i := Blank], dead + {Instance(i, epochs[i])})
      && SameHeld(d, d', |epochs|) && Held(d', i) == wrote[i]
  {
  }

  lemma MakeStep(d: Desk, i: nat, epochs: seq<nat>, wrote: seq<Disk>, dead: set<Instance>)
    requires DeskOk(d, epochs, wrote, dead) && DeskCan(d, Make(i))
    ensures var d' := DeskDo(d, Make(i), epochs[i]);
      && DeskOk(d', epochs, wrote[i := d.disks[d.saved[i]]], dead)
      && SameHeld(d, d', |epochs|) && Held(d, i) == d.disks[d.saved[i]]
  {
  }

  // ------------------------------------------------------------------ refinement

  /** A running instance writes the Persister that its node keeps, and no other node's. */
  lemma LiveActOk(f: Lab, a: Action)
    requires LabOk(f) && Ready(f) && WorldReady(Abs(f)) && CanDo(f, Act(Live(a)))
    ensures MoveEnabled(Abs(f), Live(a)) && LabOk(Take(f, Act(Live(a))))
    ensures Abs(Take(f, Act(Live(a)))) == Next(Abs(f), Live(a))
  {
    hide Do, Enabled, NodeOk, Boot, DeskOk, Held;
    var c, ns := f.w.live, Slots(f.d, f.w.live.nodes);
    ActsLocally(c, ns, a);
    var c', f' := Do(c, a), Take(f, Act(Live(a)));
    if Actor(a).Some? {
      var i := Actor(a).value;
      OwnsSaved(f, i);
      RunningWrites(f.d, c.epochs, Wrote(c.nodes), f.w.killed.Keys, i, c'.nodes[i].disk);
      assert Wrote(c'.nodes) == Wrote(c.nodes)[i := c'.nodes[i].disk];
      assert Slots(f'.d, c'.nodes) == ns[i := c'.nodes[i]];
    } else {
      assert c'.nodes == c.nodes;
    }
  }

  lemma OwnsSaved(f: Lab, i: nat)
    requires LabOk(f) && i < |f.w.live.epochs| && Sized(f.d, |f.w.live.epochs|) && !f.d.asleep[i]
    ensures Instance(i, f.w.live.epochs[i]) in f.d.own && Instance(i, f.w.live.epochs[i]) !in f.w.killed
    ensures f.d.own[Instance(i, f.w.live.epochs[i])] == f.d.saved[i]
  {
  }

  /** A killed instance writes a Persister that nobody reads any more. */
  lemma LateActOk(f: Lab, at: Instance, a: Action)
    requires LabOk(f) && Ready(f) && WorldReady(Abs(f)) && CanDo(f, Act(Late(at, a)))
    ensures MoveEnabled(Abs(f), Late(at, a)) && LabOk(Take(f, Act(Late(at, a))))
    ensures Abs(Take(f, Act(Late(at, a)))) == Next(Abs(f), Late(at, a))
  {
    hide LateKilled, NodeOk, Boot, NodeReady, DeskOk, Held;
    var l := TakenIsLost(f.w.live, a);
    var f' := Take(f, Act(Late(at, a)));
    DeadWrites(f.d, f.w.live.epochs, Wrote(f.w.live.nodes), f.w.killed.Keys, at, f'.w.killed[at].s.disk);
    assert f'.w.killed.Keys == f.w.killed.Keys;
    assert Slots(f'.d, f.w.live.nodes) == Slots(f.d, f.w.live.nodes);
  }

  /** The first copy: this is the restart. */
  lemma CopyOk(f: Lab, i: nat, p: nat)
    requires LabOk(f) && Ready(f) && WorldReady(Abs(f)) && CanDo(f, CopySaved(i, p)) && !f.d.asleep[i]
    ensures MoveEnabled(Abs(f), Live(Restart(i))) && LabOk(Take(f, CopySaved(i, p)))
    ensures Abs(Take(f, CopySaved(i, p))) == Next(Abs(f), Live(Restart(i)))
  {
    hide NodeOk, DeskOk, Held, DeskDo;
    var f', c := Take(f, CopySaved(i, p)), f.w.live;
    CopyStep(f.d, i, p, c.epochs, Wrote(c.nodes), f.w.killed.Keys);
    assert Wrote(f'.w.live.nodes) == Wrote(c.nodes)[i := Blank];
    assert f'.w.killed.Keys == f.w.killed.Keys + {Instance(i, c.epochs[i])};
    CopySleeps(f.d, i, p);
    assert Slots(f'.d, f'.w.live.nodes) == Slots(f.d, c.nodes)[i := Boot(c.nodes[i].disk)];
    RestartIs(Abs(f).live, i);
  }

  lemma CopySleeps(d: Desk, i: nat, p: nat)
    requires DeskCan(d, CopySaved(i, p))
    ensures DeskDo(d, CopySaved(i, p), 0).asleep == d.asleep[i := true]
  {
  }

  lemma MakeOk(f: Lab, i: nat)
    requires LabOk(f) && Ready(f) && CanDo(f, Make(i))
    ensures LabOk(Take(f, Make(i))) && Sized(Take(f, Make(i)).d, |f.w.live.nodes|)
    ensures |Take(f, Make(i)).w.live.nodes| == |f.w.live.nodes| && Abs(Take(f, Make(i))) == Abs(f)
  {
    hide NodeOk, DeskOk, Held;
    var f', c := Take(f, Make(i)), f.w.live;
    MakeStep(f.d, i, c.epochs, Wrote(c.nodes), f.w.killed.Keys);
    BootWrites(f.d.disks[f.d.saved[i]]);
    assert Wrote(f'.w.live.nodes) == Wrote(c.nodes)[i := f.d.disks[f.d.saved[i]]];
    assert Slots(f'.d, f'.w.live.nodes) == Slots(f.d, c.nodes);
  }

  lemma BootWrites(x: Disk)
    ensures Boot(x).disk == x
  {
  }

  /** No other step of crash1 and start1 shows. */
  lemma DeskOnly(f: Lab, s: Step)
    requires LabOk(f) && Ready(f) && CanDo(f, s) && !s.Act? && !s.Make? && !(s.CopySaved? && !f.d.asleep[s.i])
    ensures LabOk(Take(f, s)) && Abs(Take(f, s)) == Abs(f)
  {
    hide NodeOk, Boot, WorldReady, DeskOk, Held, DeskDo;
    DeskStep(f.d, s, f.w.live.epochs, Wrote(f.w.live.nodes), f.w.killed.Keys);
    assert Slots(Take(f, s).d, f.w.live.nodes) == Slots(f.d, f.w.live.nodes);
  }

  /** The move of the world that a step of the laboratory is; None if it does not show. */
  function Shows(f: Lab, s: Step): Option<Move> {
    match s
    case Act(m) => Some(m)
    case CopySaved(i, _) => if i < |f.d.asleep| && !f.d.asleep[i] then Some(Live(Restart(i))) else None
    case _ => None
  }

  lemma StepRefines(f: Lab, s: Step)
    requires LabOk(f) && Ready(f) && WorldReady(Abs(f)) && CanDo(f, s)
    ensures LabOk(Take(f, s)) && Sized(Take(f, s).d, |Take(f, s).w.live.nodes|)
    ensures match Shows(f, s)
            case None => Abs(Take(f, s)) == Abs(f)
            case Some(m) => MoveEnabled(Abs(f), m) && Abs(Take(f, s)) == Next(Abs(f), m)
  {
    hide LabOk, WorldReady, Take, Next, MoveEnabled, Abs;
    match s {
      case Act(m) =>
        match m {
          case Live(a) => LiveActOk(f, a);
          case Late(at, a) => LateActOk(f, at, a);
        }
      case CopySaved(i, p) =>
        if f.d.asleep[i] {
          DeskOnly(f, s);
        } else {
          CopyOk(f, i, p);
        }
      case Make(i) => MakeOk(f, i);
      case _ => DeskOnly(f, s);
    }
    LabSized(Take(f, s));
  }

  lemma LabSized(f: Lab)
    requires LabOk(f)
    ensures Sized(f.d, |f.w.live.nodes|)
  {
  }

  // ------------------------------------------------------------------------ runs

  datatype LabRun = LabRun(states: seq<Lab>, steps: seq<Step>)

  ghost predicate ValidLab(run: LabRun, n: nat) {
    && n >= 1
    && |run.states| == |run.steps| + 1
    && run.states[0] == Start(n)
    && forall k :: 0 <= k < |run.steps| ==> Goes(run, k)
  }

  ghost predicate Goes(run: LabRun, k: nat)
    requires |run.states| == |run.steps| + 1 && k < |run.steps|
  {
    && Ready(run.states[k]) && CanDo(run.states[k], run.steps[k])
    && run.states[k + 1] == Take(run.states[k], run.steps[k])
  }

  ghost predicate OrderlyStep(f: Lab, s: Step) {
    s.Act? ==> OrderlyMove(f.w, s.m)
  }

  ghost predicate OrderlyLab(run: LabRun) {
    forall k :: 0 <= k < |run.steps| && k < |run.states| ==> OrderlyStep(run.states[k], run.steps[k])
  }

  lemma StartOk(n: nat)
    ensures LabOk(Start(n)) && Sized(Start(n).d, n) && |Start(n).w.live.nodes| == n && Abs(Start(n)) == Beginning(n)
  {
    assert Slots(Start(n).d, Beginning(n).live.nodes) == Beginning(n).live.nodes;
  }

  /** An awake node looks the same in the world shown. */
  lemma OrderlySame(f: Lab, s: Step, m: Move)
    requires Ready(f) && CanDo(f, s) && Shows(f, s) == Some(m) && OrderlyStep(f, s)
    ensures OrderlyMove(Abs(f), m)
  {
    hide NodeOk, Boot, Held, Accepts;
  }

  /** What the tester does step by step is a run of the world in which each restart is one step. */
  lemma {:induction false} CrashRefines(run: LabRun, n: nat, k: nat) returns (r: WorldRun)
    requires ValidLab(run, n) && k < |run.states|
    ensures LabOk(run.states[k]) && Sized(run.states[k].d, |run.states[k].w.live.nodes|)
    ensures ValidWorld(r, n) && LastWorld(r) == Abs(run.states[k])
    ensures OrderlyLab(run) ==> OrderlyWorld(r)
  {
    hide LabOk, WorldReady, CanDo, Take, Next, MoveEnabled, Abs, Sized, Moves, Start, Beginning,
         OrderlyMove, OrderlyStep;
    if k == 0 {
      StartOk(n);
      r := WorldRun([Beginning(n)], []);
    } else {
      r := CrashRefines(run, n, k - 1);
      var f, s := run.states[k - 1], run.steps[k - 1];
      assert Goes(run, k - 1);
      WorldNeverStuck(r, n);
      StepRefines(f, s);
      if Shows(f, s).Some? {
        var m := Shows(f, s).value;
        if OrderlyLab(run) {
          assert OrderlyStep(f, s);
          OrderlySame(f, s, m);
        }
        r := Further(r, n, m);
      }
    }
  }

  lemma Further(r: WorldRun, n: nat, m: Move) returns (r': WorldRun)
    requires ValidWorld(r, n) && WorldReady(LastWorld(r)) && MoveEnabled(LastWorld(r), m)
    ensures ValidWorld(r', n) && LastWorld(r') == Next(LastWorld(r), m)
    ensures OrderlyWorld(r) && OrderlyMove(LastWorld(r), m) ==> OrderlyWorld(r')
  {
    hide WorldReady, MoveEnabled, Next, OrderlyMove;
    WorldNeverStuck(r, n);
    r' := ExtendWorld(r, m);
    assert forall k :: 0 <= k < |r.moves| ==> r'.states[k] == r.states[k] && r'.moves[k] == r.moves[k];
  }

  /** Hence what instances apply agrees in every orderly run with real crashes. */
  lemma CrashSafety(run: LabRun, n: nat, k: nat, a: Instance, b: Instance, x: nat, y: nat)
    requires ValidLab(run, n) && OrderlyLab(run) && k < |run.states|
    requires x < |SaidBy(run.states[k].w, a)| && y < |SaidBy(run.states[k].w, b)|
    requires SaidBy(run.states[k].w, a)[x].index == SaidBy(run.states[k].w, b)[y].index
    ensures SaidBy(run.states[k].w, a)[x].cmd == SaidBy(run.states[k].w, b)[y].cmd
  {
    hide ValidLab, OrderlyLab, ValidWorld, OrderlyWorld, LabOk;
    var r := CrashRefines(run, n, k);
    HasStates(r, n);
    StateMachineSafety(r, n, |r.states| - 1, a, b, x, y);
  }

  /** Every enabled step of every reachable laboratory extends the run. */
  lemma LabNeverStuck(run: LabRun, n: nat)
    requires ValidLab(run, n)
    ensures Ready(run.states[|run.steps|])
    ensures forall s: Step :: CanDo(run.states[|run.steps|], s) ==>
      ValidLab(LabRun(run.states + [Take(run.states[|run.steps|], s)], run.steps + [s]), n)
  {
    hide LabOk, WorldReady, CanDo, Take, Abs;
    var f := run.states[|run.steps|];
    var r := CrashRefines(run, n, |run.steps|);
    WorldNeverStuck(r, n);
    SlotsReady(f);
    forall s: Step | CanDo(f, s)
      ensures ValidLab(LabRun(run.states + [Take(f, s)], run.steps + [s]), n)
    {
      var more := LabRun(run.states + [Take(f, s)], run.steps + [s]);
      forall k | 0 <= k < |more.steps|
        ensures Goes(more, k)
      {
        assert k < |run.steps| ==> Goes(run, k);
      }
    }
  }

  lemma SlotsReady(f: Lab)
    requires LabOk(f) && Sized(f.d, |f.w.live.nodes|) && WorldReady(Abs(f))
    ensures Ready(f)
  {
    hide NodeOk, DeskOk, Boot;
    var ns := Slots(f.d, f.w.live.nodes);
    forall i | 0 <= i < |ns|
      ensures NodeOk(f.w.live.nodes[i], |ns|)
    {
      assert NodeOk(ns[i], |ns|);
      NothingOk(|ns|);
    }
  }

  lemma NothingOk(n: nat)
    ensures NodeOk(NOTHING, n)
  {
  }

  lemma HasStates(r: WorldRun, n: nat)
    requires ValidWorld(r, n)
    ensures r.states != []
  {
  }

  // ------------------------------------------------------- every restart happens

  function LastLab(run: LabRun): Lab
    requires run.states != []
  {
    run.states[|run.states| - 1]
  }

  ghost predicate LabGrown(run: LabRun, run': LabRun) {
    run.states <= run'.states && run.steps <= run'.steps
  }

  /** How many steps of crash1 and start1 are still to come before the node is up. */
  function StagesLeft(st: Stage): nat {
    match st
    case Up => 0
    case Made => 1
    case Renewed => 2
    case Crashed => 3
    case Emptied(_) => 4
    case Superseded => 5
    case Deleted => 6
  }

  lemma {:induction false} Above(ps: set<nat>) returns (p: nat)
    ensures forall x :: x in ps ==> x < p
  {
    if ps == {} {
      p := 0;
    } else {
      var x :| x in ps;
      p := Above(ps - {x});
      assert forall y :: y in ps ==> y == x || y in ps - {x};
      if p <= x {
        p := x + 1;
      }
    }
  }

  /** The tester's next step for a node. */
  function Following(d: Desk, i: nat, p: nat): Step
    requires i < |d.stage|
  {
    match d.stage[i]
    case Up => Delete(i)
    case Deleted => CopySaved(i, p)
    case Superseded => Empty(i, p)
    case Emptied(_) => Refill(i)
    case Crashed => Renew(i, p)
    case Renewed => Make(i)
    case Made => Register(i)
  }

  lemma CanFollow(f: Lab, i: nat, p: nat)
    requires LabOk(f) && Ready(f) && i < |f.w.live.nodes| && p !in f.d.disks
    ensures CanDo(f, Following(f.d, i, p))
    ensures var f', st := Take(f, Following(f.d, i, p)), f.d.stage[i];
      && Sized(f'.d, |f.w.live.nodes|)
      && (st.Up? ==> f'.d.stage[i].Deleted?) && (!st.Up? ==> StagesLeft(f'.d.stage[i]) == StagesLeft(st) - 1)
      && f'.d.asleep[i] == (if st.Deleted? then true else if st.Renewed? then false else f.d.asleep[i])
  {
    hide WorldReady, Boot, NewlyKilled;
  }

  /** One step on: it shows only if it is the first copy of a running node, and then as its restart. */
  lemma Onward(run: LabRun, n: nat, i: nat) returns (run': LabRun)
    requires ValidLab(run, n) && i < n
    ensures ValidLab(run', n) && LabGrown(run, run') && run'.states != []
    ensures Sized(LastLab(run).d, |LastLab(run).w.live.nodes|) && Sized(LastLab(run').d, |LastLab(run').w.live.nodes|)
    ensures |LastLab(run).w.live.nodes| == |LastLab(run').w.live.nodes| == n
    ensures var d, d' := LastLab(run).d, LastLab(run').d;
      && (d.stage[i].Up? ==> d'.stage[i].Deleted? && !d.asleep[i])
      && (!d.stage[i].Up? ==> StagesLeft(d'.stage[i]) == StagesLeft(d.stage[i]) - 1)
      && d'.asleep[i] == (if d.stage[i].Deleted? then true else if d.stage[i].Renewed? then false else d.asleep[i])
    ensures var f, f' := LastLab(run), LastLab(run');
      if f.d.stage[i].Deleted? && !f.d.asleep[i] then
        WorldReady(Abs(f)) && MoveEnabled(Abs(f), Live(Restart(i))) && Abs(f') == Next(Abs(f), Live(Restart(i)))
      else
        Abs(f') == Abs(f)
  {
    hide LabOk, WorldReady, CanDo, Take, Abs, Next, MoveEnabled, ValidWorld, OrderlyWorld;
    var f, k := LastLab(run), |run.steps|;
    var r := CrashRefines(run, n, k);
    WorldSized(r, n);
    AbsSized(f);
    WorldNeverStuck(r, n);
    LabNeverStuck(run, n);
    var p := Above(f.d.disks.Keys);
    CanFollow(f, i, p);
    var s := Following(f.d, i, p);
    StepRefines(f, s);
    run' := LabRun(run.states + [Take(f, s)], run.steps + [s]);
    var r' := CrashRefines(run', n, k + 1);
    WorldSized(r', n);
    AbsSized(LastLab(run'));
    UpIsAwake(f, i);
  }

  lemma WorldSized(r: WorldRun, n: nat)
    requires ValidWorld(r, n)
    ensures |LastWorld(r).live.nodes| == n
  {
    hide WorldOk;
    RunWorldOk(r, n, |r.states| - 1);
  }

  lemma AbsSized(f: Lab)
    requires Sized(f.d, |f.w.live.nodes|)
    ensures |Abs(f).live.nodes| == |f.w.live.nodes|
  {
  }

  lemma UpIsAwake(f: Lab, i: nat)
    requires LabOk(f) && i < |f.d.stage| && Sized(f.d, |f.w.live.nodes|)
    ensures f.d.stage[i].Up? ==> !f.d.asleep[i]
  {
  }

  /** A sleeping node comes up again, as the instance it was waiting to be. */
  lemma {:induction false} ComesUp(run: LabRun, n: nat, i: nat) returns (run': LabRun)
    requires ValidLab(run, n) && i < n && Sized(LastLab(run).d, |LastLab(run).w.live.nodes|)
    requires |LastLab(run).d.stage| == n && LastLab(run).d.asleep[i]
    ensures ValidLab(run', n) && LabGrown(run, run') && Sized(LastLab(run').d, |LastLab(run').w.live.nodes|)
    ensures |LastLab(run').d.stage| == n && LastLab(run').d.stage[i].Up? && !LastLab(run').d.asleep[i]
    ensures Abs(LastLab(run')) == Abs(LastLab(run))
    decreases StagesLeft(LastLab(run).d.stage[i])
  {
    hide Goes, WorldReady, MoveEnabled, Next, Abs;
    run' := Onward(run, n, i);
    if LastLab(run').d.asleep[i] {
      run' := ComesUp(run', n, i);
    } else {
      run' := Onward(run', n, i);
    }
  }

  /** Every restart of the world can happen step by step, and ends with the node up. */
  lemma RestartHappens(run: LabRun, n: nat, i: nat) returns (run': LabRun)
    requires ValidLab(run, n) && i < n
    requires |LastLab(run).d.stage| == n && LastLab(run).d.stage[i].Up?
    ensures ValidLab(run', n) && LabGrown(run, run')
    ensures Sized(LastLab(run).d, |LastLab(run).w.live.nodes|) && Sized(LastLab(run').d, |LastLab(run').w.live.nodes|)
    ensures |LastLab(run').d.stage| == n && LastLab(run').d.stage[i].Up? && !LastLab(run').d.asleep[i]
    ensures var w := Abs(LastLab(run));
      && WorldReady(w) && MoveEnabled(w, Live(Restart(i)))
      && Abs(LastLab(run')) == Next(w, Live(Restart(i)))
  {
    hide Goes, WorldReady, MoveEnabled, Next, Abs;
    run' := Onward(run, n, i);
    run' := Onward(run', n, i);
    run' := ComesUp(run', n, i);
  }
}
