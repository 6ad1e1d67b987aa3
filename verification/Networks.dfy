/**
 The replication and GC protocol as a transition system.

 The membership is fixed and every matrix starts with a row for every member.
 Messages stay in the bag once sent: a message that is never received is lost,
 one received twice is duplicated, and the bag has no order. A replica may shut
 down, which freezes its state as the payload the others absorb. It may also crash and
 come up again from its journal, which loses its rows, its final dots and whatever its
 loop was about to commit, but neither its set nor its markers. Object storage
 only decides whether a GC round goes through, so a round may be aborted freely.

 `World` holds history variables that no step reads: what every replica has ever
 mutated, and what each has ever seen (unlike a version vector, `seen` does not
 forget the columns of retired replicas). `erased` collects the replicas that
 some committed marker announced as departed, and `settled` says that no merge so
 far left an insertion behind that a removal had already named.
 */
module Networks {
  import opened Options
  import opened Dots
  import opened DotMaps
  import opened VersionMatrices
  import opened GcWrappers
  import opened OrSets
  import opened Histories
  import opened Replicas

  datatype Envelope = Envelope(dest: Pid, message: Message)

  datatype World = World(history: History, seen: map<Pid, DotSet>, live: set<Pid>, erased: set<Pid>, settled: bool)

  datatype Network = Network(nodes: map<Pid, Node>, bag: set<Envelope>, world: World)

  // ---- The start of a run, just after bootstrap ----

  function FirstWrapper(r: Pid, members: set<Pid>): Wrapper {
    Wrapper(Matrix(r, map p | p in members :: if p == r then map[STABLE_REPLICA_PID := INITIAL_GC_COUNTER]
                                              else map[p := -1][STABLE_REPLICA_PID := INITIAL_GC_COUNTER], map[]), [])
  }

  function FirstNode(r: Pid, members: set<Pid>): Node {
    Node(EMPTY.(pid := Some(r)), FirstWrapper(r, members), Idle)
  }

  function Start(members: set<Pid>): Network {
    Network(map r | r in members :: FirstNode(r, members), {},
            World(map r | r in members :: [], map r | r in members :: map[], members, {}, true))
  }

  // ---- Steps ----

  datatype Step =
    | Mutates(r: Pid, mutation: Mutation)
    | Refreshes(r: Pid)
    | Discovers(r: Pid, p: Pid, gcCounter: Counter)
    | Pulls(r: Pid, dest: Pid)
    | Answers(r: Pid, from: Pid, vv: DotSet, order: seq<Pid>, stable: Option<DotSet>, departed: Option<seq<Pid>>)
    | Receives(r: Pid, group: Group, marker: GcMarker)
    | CommitsGroup(r: Pid)
    | BeginsGc(r: Pid, frontier: DotSet, departed: Option<seq<Pid>>)
    | AbortsGc(r: Pid)
    | CommitsGc(r: Pid)
    | ShutsDown(r: Pid)
    | Absorbs(r: Pid, leaver: Pid, order: seq<Pid>)
    | Restarts(r: Pid, members: map<Pid, Counter>)

  ghost predicate Enabled(net: Network, step: Step) {
    && step.r in net.nodes && step.r in net.world.seen && step.r in net.world.history && step.r in net.world.live
    && Bound(net.nodes[step.r]) && net.nodes[step.r].crdt.pid == Some(step.r)
    && var n := net.nodes[step.r];
       match step
       case Mutates(_, _) => true
       case Refreshes(_) => n.phase.Idle?
       case Discovers(r, p, _) => n.phase.Idle? && p in net.nodes && p != r
       case Pulls(r, dest) => n.phase.Idle? && dest in net.nodes && dest != r
       case Answers(r, from, vv, order, stable, departed) =>
         && n.phase.Idle? && Envelope(r, VersionVector(from, vv)) in net.bag
         && Enumerates(order, n.crdt.log.Keys + vv.Keys)
         && Bound(VectorHandled(n, from, vv)) && IsStable(VectorHandled(n, from, vv).wrapper.matrix, stable, departed)
       case Receives(r, group, marker) =>
         && n.phase.Idle? && Envelope(r, DeltaGroup(group, marker)) in net.bag
         && (IsNewMarker(n, marker) ==> OwnRowSurvives(n.wrapper.matrix, marker.departed))
       case CommitsGroup(_) => n.phase.Merging? && GroupCommitted(n).Some?
       case BeginsGc(_, stable, departed) => n.phase.Idle? && GcDue(n, stable, departed)
       case AbortsGc(_) => n.phase.Collecting?
       case CommitsGc(_) => n.phase.Collecting? && OwnRowSurvives(n.wrapper.matrix, n.phase.marker.departed)
       case ShutsDown(_) => n.phase.Idle?
       case Absorbs(_, leaver, order) =>
         && n.phase.Idle? && leaver in net.nodes && leaver !in net.world.live
         && !(leaver in n.wrapper.matrix.finals
              && n.wrapper.matrix.finals[leaver] == FinalDot(net.nodes[leaver].crdt, leaver).counter)
         && Enumerates(order, net.nodes[leaver].crdt.log.Keys + n.crdt.vv.Keys)
       case Restarts(r, members) =>
         r != STABLE_REPLICA_PID && KeepsAll(r, n.wrapper.markers) && net.world.live <= members.Keys <= net.nodes.Keys
  }

  ghost function NodeAfter(net: Network, step: Step): Node
    requires Enabled(net, step)
  {
    var n := net.nodes[step.r];
    match step
    case Mutates(_, mutation) => n.(crdt := Mutated(n.crdt, mutation))
    case Refreshes(_) => OwnRefreshed(n)
    case Discovers(_, p, gcCounter) => n.(wrapper := ActiveObserved(n.wrapper, p, gcCounter))
    case Pulls(_, _) => OwnRefreshed(n)
    case Answers(_, from, vv, _, _, _) => VectorHandled(n, from, vv)
    case Receives(_, group, marker) => DeltaReceived(n, group, marker)
    case CommitsGroup(_) => GroupCommitted(n).value
    case BeginsGc(_, stable, departed) => GcBegun(n, stable, departed)
    case AbortsGc(_) => n.(phase := Idle)
    case CommitsGc(_) => GcCommitted(n)
    case ShutsDown(_) => n
    case Absorbs(_, leaver, order) =>
      PayloadRead(n, net.nodes[leaver].crdt, FinalDot(net.nodes[leaver].crdt, leaver), order)
    case Restarts(r, members) => Restored(r, n.crdt, n.wrapper.markers, members)
  }

  ghost function Sent(net: Network, step: Step): set<Envelope>
    requires Enabled(net, step)
  {
    var n := net.nodes[step.r];
    match step
    case Pulls(r, dest) => {Envelope(dest, VersionVector(r, Stamped(n.wrapper, n.crdt.vv)))}
    case Answers(_, from, vv, order, stable, _) =>
      {Envelope(from, DeltaGroup(Answer(n, vv, order), Metadata(VectorHandled(n, from, vv).wrapper, stable)))}
    case _ => {}
  }

  ghost function WorldOfCommit(w: World, r: Pid, n: Node): World
    requires r in w.seen && n.phase.Merging?
  {
    w.(seen := w.seen[r := JoinedAll(w.seen[r], n.phase.group.list)],
       settled := w.settled && Settles(w.history, n.crdt.vv, w.seen[r], n.phase.group.list))
  }

  ghost function WorldAfter(net: Network, step: Step): World
    requires Enabled(net, step)
  {
    var n, w := net.nodes[step.r], net.world;
    match step
    case Mutates(r, mutation) =>
      var delta := Produced(n.crdt, NextDot(n.crdt.vv, r), mutation);
      w.(history := w.history[r := w.history[r] + [Event(delta.change, w.seen[r])]],
         seen := w.seen[r := Put(w.seen[r], r, delta.dot.counter)])
    case CommitsGroup(r) => WorldOfCommit(w, r, n)
    case CommitsGc(_) => w.(erased := w.erased + Announced(n.phase.marker.departed))
    case ShutsDown(r) => w.(live := w.live - {r})
    case _ => w
  }

  ghost function After(net: Network, step: Step): Network
    requires Enabled(net, step)
  {
    Network(net.nodes[step.r := NodeAfter(net, step)], net.bag + Sent(net, step), WorldAfter(net, step))
  }

  ghost predicate IsRun(net: Network, steps: seq<Step>)
    decreases |steps|
  {
    steps == [] || (Enabled(net, steps[0]) && IsRun(After(net, steps[0]), steps[1..]))
  }

  ghost function EndOf(net: Network, steps: seq<Step>): Network
    requires IsRun(net, steps)
    decreases |steps|
  {
    if steps == [] then net else EndOf(After(net, steps[0]), steps[1..])
  }

  ghost predicate Reachable(members: set<Pid>, net: Network) {
    STABLE_REPLICA_PID !in members && exists steps :: IsRun(Start(members), steps) && EndOf(Start(members), steps) == net
  }
}
