/**
 Bee tasks over the shared store: planners claim nodes, executors move them on, and the lifecycle
 controller writes back from listings it made before (`coding_agent/bee/runtime.py`, `launch.py`).
 Every store call is one atomic act; any number of processes interleave.
 */
module BeePlanner {
  import opened Wrappers

  datatype NodeStatus = Pending | Ready | Running | Completed | Failed | Skipped

  datatype TaskStatus = TaskPending | TaskRunning | TaskCompleted | TaskFailed | TaskCancelled

  datatype Key = Key(task: string, node: string)

  /** `started`: the node has a run id or a start time. `occupancy` counts how often it became pending. */
  datatype Node = Node(status: NodeStatus, dependsOn: set<string>, started: bool, occupancy: nat)

  type Nodes = map<Key, Node>

  datatype ClaimRecord = ClaimRecord(process: nat, key: Key, occupancy: nat)

  /** `views` holds what each process listed last. */
  datatype World = World(tasks: map<string, TaskStatus>, nodes: Nodes, views: map<nat, Nodes>, claims: seq<ClaimRecord>)

  datatype Act =
    | List(process: nat, task: string)
    | Claim(process: nat, key: Key)
    | Execute(key: Key, to: NodeStatus, started: bool)
    | ResumeWrite(process: nat, key: Key)
    | RetryWrite(process: nat, key: Key)
    | CancelWrite(process: nat, key: Key)
    | SetTask(task: string, taskStatus: TaskStatus)

  function TaskNodes(nodes: Nodes, task: string): Nodes {
    map k | k in nodes && k.task == task :: nodes[k]
  }

  /** `_node_dependencies_ready` on one listing. */
  predicate DependenciesReady(view: Nodes, key: Key)
    requires key in view
  {
    forall d :: d in view[key].dependsOn ==> Key(key.task, d) in view && view[Key(key.task, d)].status.Completed?
  }

  /** The status that a lifecycle process writes over a node, judged by its own listing. */
  function Overwrite(seen: Node, act: Act): Option<NodeStatus> {
    match act
    case ResumeWrite(_, _) => if seen.status.Running? || seen.status.Failed? then Some(Pending) else None
    case RetryWrite(_, _) => if seen.status.Failed? then Some(Pending) else None
    case CancelWrite(_, _) =>
      if seen.status.Completed? || (seen.status.Skipped? && !seen.started) then None else Some(Skipped)
    case _ => None
  }

  /** `update_node_status` writes whatever the node is now; becoming pending starts a new occupancy. */
  function Written(node: Node, to: NodeStatus, started: bool): Node {
    Node(to, node.dependsOn, started,
         if to.Pending? && !node.status.Pending? then node.occupancy + 1 else node.occupancy)
  }

  function Claimed(node: Node): Node {
    Node(Ready, node.dependsOn, false, node.occupancy)
  }

  /** The planner saw the node pending with its dependencies completed, and it is still pending. */
  predicate ClaimSucceeds(w: World, process: nat, key: Key) {
    && process in w.views && key in w.views[process]
    && w.views[process][key].status.Pending?
    && DependenciesReady(w.views[process], key)
    && key in w.nodes && w.nodes[key].status.Pending?
  }

  predicate Overwrites(w: World, act: Act) {
    && (act.ResumeWrite? || act.RetryWrite? || act.CancelWrite?)
    && act.process in w.views && act.key in w.views[act.process] && act.key in w.nodes
    && Overwrite(w.views[act.process][act.key], act).Some?
  }

  /** The act writes a status over a node of the store. */
  predicate Writes(w: World, act: Act) {
    if act.Execute? then act.key in w.nodes else Overwrites(w, act)
  }

  function StatusWritten(w: World, act: Act): NodeStatus
    requires Writes(w, act)
  {
    if act.Execute? then act.to else Overwrite(w.views[act.process][act.key], act).value
  }

  function NodeWritten(w: World, act: Act): Node
    requires Writes(w, act)
  {
    Written(w.nodes[act.key], StatusWritten(w, act), act.Execute? && act.started)
  }

  function Perform(w: World, act: Act): World {
    match act
    case List(process, task) => w.(views := w.views[process := TaskNodes(w.nodes, task)])
    case Claim(process, key) =>
      if ClaimSucceeds(w, process, key) then
        w.(nodes := w.nodes[key := Claimed(w.nodes[key])],
           claims := w.claims + [ClaimRecord(process, key, w.nodes[key].occupancy)])
      else w
    case SetTask(task, to) => if task in w.tasks then w.(tasks := w.tasks[task := to]) else w
    case _ =>
      if Writes(w, act) then
        w.(nodes := w.nodes[act.key := NodeWritten(w, act)])
      else w
  }

  function Runs(w: World, acts: seq<Act>): World {
    if acts == [] then w else Perform(Runs(w, acts[..|acts| - 1]), acts[|acts| - 1])
  }

  // ---------- Safety ----------

  predicate Active(s: NodeStatus) {
    s.Ready? || s.Running? || s.Completed?
  }

  predicate Done(nodes: Nodes, key: Key) {
    key in nodes && nodes[key].status.Completed?
  }

  predicate NodeSafe(nodes: Nodes, key: Key)
    requires key in nodes
  {
    Active(nodes[key].status) ==> forall d :: d in nodes[key].dependsOn ==> Done(nodes, Key(key.task, d))
  }

  /** A ready, running or completed node has all its dependencies completed. */
  ghost predicate DependenciesDone(nodes: Nodes) {
    forall k :: k in nodes ==> NodeSafe(nodes, k)
  }

  predicate ViewHolds(nodes: Nodes, view: Nodes, key: Key)
    requires key in view
  {
    && key in nodes
    && nodes[key].dependsOn == view[key].dependsOn
    && (view[key].status.Completed? ==> nodes[key].status.Completed?)
  }

  /** What a process saw completed still is. */
  ghost predicate ViewsHold(w: World) {
    forall p, k :: p in w.views && k in w.views[p] ==> ViewHolds(w.nodes, w.views[p], k)
  }

  ghost predicate SafeInv(w: World) {
    DependenciesDone(w.nodes) && ViewsHold(w)
  }

  /** A write leaves a completed node completed, and activates a node only with its dependencies completed. */
  predicate Guarded(w: World, act: Act) {
    Writes(w, act) ==>
      && (w.nodes[act.key].status.Completed? ==> StatusWritten(w, act).Completed?)
      && (Active(StatusWritten(w, act)) ==> DependenciesReady(w.nodes, act.key))
  }

  /** An executor that only moves a ready node to running, and a running node to an outcome, keeps that guard. */
  lemma {:induction false} ExecutorMovesAreGuarded(w: World, key: Key, to: NodeStatus, started: bool)
    requires DependenciesDone(w.nodes) && key in w.nodes
    requires || (w.nodes[key].status.Ready? && to.Running?)
             || (w.nodes[key].status.Running? && (to.Completed? || to.Failed?))
    ensures Guarded(w, Execute(key, to, started))
  {
    assert NodeSafe(w.nodes, key);
  }

  ghost predicate GuardedRun(w: World, acts: seq<Act>) {
    forall i :: 0 <= i < |acts| ==> Guarded(Runs(w, acts[..i]), acts[i])
  }

  /** Changing one node keeps safety when it stays completed, and is safe itself. */
  lemma {:induction false} ChangeKeepsSafety(w: World, key: Key, node: Node)
    requires SafeInv(w) && key in w.nodes
    requires node.dependsOn == w.nodes[key].dependsOn
    requires w.nodes[key].status.Completed? ==> node.status.Completed?
    requires Active(node.status) ==> forall d :: d in node.dependsOn ==> Done(w.nodes, Key(key.task, d))
    ensures SafeInv(w.(nodes := w.nodes[key := node]))
  {
    var next := w.nodes[key := node];
    forall k | k in next ensures NodeSafe(next, k) {
      assert NodeSafe(w.nodes, k);
    }
    forall p, k | p in w.views && k in w.views[p] ensures ViewHolds(next, w.views[p], k) {
      assert ViewHolds(w.nodes, w.views[p], k);
    }
  }

  lemma {:induction false} ClaimIsSafe(w: World, process: nat, key: Key)
    requires SafeInv(w) && ClaimSucceeds(w, process, key)
    ensures SafeInv(Perform(w, Claim(process, key)))
  {
    var view := w.views[process];
    assert ViewHolds(w.nodes, view, key);
    forall d | d in w.nodes[key].dependsOn ensures Done(w.nodes, Key(key.task, d)) {
      assert ViewHolds(w.nodes, view, Key(key.task, d));
    }
    ChangeKeepsSafety(w, key, Claimed(w.nodes[key]));
    var next := Perform(w, Claim(process, key));
    assert next.nodes == w.nodes[key := Claimed(w.nodes[key])] && next.views == w.views;
  }

  lemma {:induction false} PerformKeepsSafety(w: World, act: Act)
    requires SafeInv(w) && Guarded(w, act)
    ensures SafeInv(Perform(w, act))
  {
    match act {
      case List(process, task) =>
        var next := Perform(w, act);
        forall p, k | p in next.views && k in next.views[p] ensures ViewHolds(next.nodes, next.views[p], k) {
          if p != process {
            assert ViewHolds(w.nodes, w.views[p], k);
          }
        }
      case Claim(process, key) =>
        if ClaimSucceeds(w, process, key) {
          ClaimIsSafe(w, process, key);
        }
      case SetTask(task, to) =>
        assert Perform(w, act).nodes == w.nodes && Perform(w, act).views == w.views;
      case _ =>
        if Writes(w, act) {
          var key := act.key;
          ChangeKeepsSafety(w, key, NodeWritten(w, act));
        }
    }
  }

  /**
   Over every interleaving of planners, executors, resume, retry and cancel whose writes are
   guarded, an active node has all its dependencies completed.
   */
  lemma {:induction false} RunsKeepSafety(w: World, acts: seq<Act>)
    requires SafeInv(w) && GuardedRun(w, acts)
    ensures SafeInv(Runs(w, acts))
  {
    if acts != [] {
      var front := acts[..|acts| - 1];
      forall i | 0 <= i < |front| ensures Guarded(Runs(w, front[..i]), front[i]) {
        assert front[..i] == acts[..i];
      }
      RunsKeepSafety(w, front);
      PerformKeepsSafety(Runs(w, front), acts[|acts| - 1]);
    }
  }

  // ---------- Exactly when a write is safe ----------

  predicate DependsOn(nodes: Nodes, k: Key, key: Key)
    requires k in nodes
  {
    k != key && k.task == key.task && key.node in nodes[k].dependsOn
  }

  ghost predicate HasActiveDependant(nodes: Nodes, key: Key) {
    exists k :: k in nodes && DependsOn(nodes, k, key) && Active(nodes[k].status)
  }

  /**
   The node can take the status without leaving a dependency undone; a node that depends on itself only as
   completed.
   */
  predicate MayBecome(nodes: Nodes, key: Key, to: NodeStatus)
    requires key in nodes
  {
    Active(to) ==>
      forall d :: d in nodes[key].dependsOn ==>
        if d == key.node then to.Completed? else Done(nodes, Key(key.task, d))
  }

  /** The write takes a completed node away from an active dependant. */
  ghost predicate TakesAway(w: World, act: Act)
    requires Writes(w, act)
  {
    w.nodes[act.key].status.Completed? && !StatusWritten(w, act).Completed? && HasActiveDependant(w.nodes, act.key)
  }

  /**
   A status write, by an executor or by a lifecycle process, leaves the dependencies of all active
   nodes completed exactly when its own node may take the status and it does not take a completed
   node away from an active dependant.
   */
  lemma {:induction false} WriteIsSafeExactly(w: World, act: Act)
    requires DependenciesDone(w.nodes) && Writes(w, act)
    ensures DependenciesDone(Perform(w, act).nodes)
            <==> MayBecome(w.nodes, act.key, StatusWritten(w, act)) && !TakesAway(w, act)
  {
    var key, to, next := act.key, StatusWritten(w, act), Perform(w, act).nodes;
    assert next == w.nodes[key := NodeWritten(w, act)];
    assert key == Key(key.task, key.node);
    if MayBecome(w.nodes, key, to) {
      assert NodeSafe(next, key);
    } else {
      assert !NodeSafe(next, key);
    }
    if TakesAway(w, act) {
      var k :| k in w.nodes && DependsOn(w.nodes, k, key) && Active(w.nodes[k].status);
      assert !Done(next, Key(k.task, key.node));
      assert !NodeSafe(next, k);
    } else {
      forall k | k in next && k != key ensures NodeSafe(next, k) {
        assert NodeSafe(w.nodes, k);
        assert k.task == key.task && key.node in w.nodes[k].dependsOn ==> DependsOn(w.nodes, k, key);
      }
    }
  }

  /** At that moment, a resume, retry or cancel undoes an active node's dependency exactly when it takes it away. */
  lemma {:induction false} OverwriteIsSafeExactly(w: World, act: Act)
    requires DependenciesDone(w.nodes) && Overwrites(w, act)
    ensures DependenciesDone(Perform(w, act).nodes)
            <==> !(w.nodes[act.key].status.Completed? && HasActiveDependant(w.nodes, act.key))
  {
    WriteIsSafeExactly(w, act);
  }

  /**
   A claim compares only the status in the store, and judges the dependencies by an earlier listing:
   it is safe exactly when they are completed in the store as well.
   */
  lemma {:induction false} ClaimIsSafeExactly(w: World, process: nat, key: Key)
    requires DependenciesDone(w.nodes) && ClaimSucceeds(w, process, key)
    ensures DependenciesDone(Perform(w, Claim(process, key)).nodes) <==> DependenciesReady(w.nodes, key)
  {
    var next := Perform(w, Claim(process, key)).nodes;
    assert next == w.nodes[key := Claimed(w.nodes[key])];
    if DependenciesReady(w.nodes, key) {
      forall k | k in next ensures NodeSafe(next, k) {
        assert NodeSafe(w.nodes, k);
      }
    } else {
      var d :| d in w.nodes[key].dependsOn && !Done(w.nodes, Key(key.task, d));
      var missing := Key(key.task, d);
      assert !Done(w.nodes, missing);
      assert !Done(next, missing);
      assert !NodeSafe(next, key);
    }
  }

  /** The condition of each act in the store at its moment; listings and task updates have none. */
  ghost predicate ActIsSafe(w: World, act: Act) {
    && (act.Claim? && ClaimSucceeds(w, act.process, act.key) ==> DependenciesReady(w.nodes, act.key))
    && (Writes(w, act) ==> MayBecome(w.nodes, act.key, StatusWritten(w, act)) && !TakesAway(w, act))
  }

  lemma {:induction false} ActIsSafeExactly(w: World, act: Act)
    requires DependenciesDone(w.nodes)
    ensures DependenciesDone(Perform(w, act).nodes) <==> ActIsSafe(w, act)
  {
    hide DependenciesDone, TakesAway, MayBecome, DependenciesReady;
    if act.Claim? && ClaimSucceeds(w, act.process, act.key) {
      ClaimIsSafeExactly(w, act.process, act.key);
    } else if Writes(w, act) {
      WriteIsSafeExactly(w, act);
    } else {
      assert Perform(w, act).nodes == w.nodes;
    }
  }

  ghost predicate AlwaysDone(w: World, acts: seq<Act>) {
    forall i :: 0 <= i <= |acts| ==> DependenciesDone(Runs(w, acts[..i]).nodes)
  }

  ghost predicate AlwaysSafe(w: World, acts: seq<Act>) {
    forall i :: 0 <= i < |acts| ==> ActIsSafe(Runs(w, acts[..i]), acts[i])
  }

  lemma {:induction false} AlwaysDoneUnfolds(w: World, acts: seq<Act>)
    requires acts != []
    ensures AlwaysDone(w, acts) <==> AlwaysDone(w, acts[..|acts| - 1]) && DependenciesDone(Runs(w, acts).nodes)
  {
    hide DependenciesDone, Runs;
    var n, front := |acts| - 1, acts[..|acts| - 1];
    assert acts[..n + 1] == acts;
    assert forall i :: 0 <= i <= n ==> front[..i] == acts[..i];
    if AlwaysDone(w, acts) {
      assert DependenciesDone(Runs(w, acts[..n + 1]).nodes);
      forall i | 0 <= i <= n ensures DependenciesDone(Runs(w, front[..i]).nodes) {
        assert DependenciesDone(Runs(w, acts[..i]).nodes);
      }
    } else if AlwaysDone(w, front) {
      forall i | 0 <= i <= n ensures DependenciesDone(Runs(w, acts[..i]).nodes) {
        assert DependenciesDone(Runs(w, front[..i]).nodes);
      }
    }
  }

  lemma {:induction false} AlwaysSafeUnfolds(w: World, acts: seq<Act>)
    requires acts != []
    ensures var n := |acts| - 1;
            AlwaysSafe(w, acts) <==> AlwaysSafe(w, acts[..n]) && ActIsSafe(Runs(w, acts[..n]), acts[n])
  {
    hide ActIsSafe, Runs;
    var n, front := |acts| - 1, acts[..|acts| - 1];
    assert forall i :: 0 <= i <= n ==> front[..i] == acts[..i];
    if AlwaysSafe(w, acts) {
      forall i | 0 <= i < n ensures ActIsSafe(Runs(w, front[..i]), front[i]) {
        assert ActIsSafe(Runs(w, acts[..i]), acts[i]);
      }
    } else if AlwaysSafe(w, front) {
      forall i | 0 <= i < n ensures ActIsSafe(Runs(w, acts[..i]), acts[i]) {
        assert ActIsSafe(Runs(w, front[..i]), front[i]);
      }
    }
  }

  /**
   Over every interleaving of planners, executors, resume, retry and cancel: the dependencies of
   active nodes are completed all along exactly when each write and each successful claim meets its
   own condition in the store at its moment.
   */
  lemma {:induction false} RunIsSafeExactly(w: World, acts: seq<Act>)
    requires DependenciesDone(w.nodes)
    ensures AlwaysDone(w, acts) <==> AlwaysSafe(w, acts)
    decreases |acts|
  {
    hide DependenciesDone, ActIsSafe, Perform;
    if acts == [] {
      assert acts[..0] == acts;
    } else {
      var n := |acts| - 1;
      AlwaysDoneUnfolds(w, acts);
      AlwaysSafeUnfolds(w, acts);
      RunIsSafeExactly(w, acts[..n]);
      if AlwaysDone(w, acts[..n]) {
        assert acts[..n][..n] == acts[..n];
        assert DependenciesDone(Runs(w, acts[..n][..n]).nodes);
        ActIsSafeExactly(Runs(w, acts[..n]), acts[n]);
      }
    }
  }

  // ---------- Claims ----------

  ghost predicate ClaimsInv(w: World) {
    && (forall i, j :: 0 <= i < j < |w.claims| ==>
          w.claims[i].key != w.claims[j].key || w.claims[i].occupancy != w.claims[j].occupancy)
    && (forall i :: 0 <= i < |w.claims| ==> ClaimSpent(w.nodes, w.claims[i]))
  }

  /** The claimed occupancy is over: the node left it, or is past it. */
  predicate ClaimSpent(nodes: Nodes, c: ClaimRecord) {
    && c.key in nodes
    && c.occupancy <= nodes[c.key].occupancy
    && (nodes[c.key].status.Pending? ==> c.occupancy < nodes[c.key].occupancy)
  }

  lemma {:induction false} PerformKeepsClaims(w: World, act: Act)
    requires ClaimsInv(w)
    ensures ClaimsInv(Perform(w, act))
    ensures w.claims <= Perform(w, act).claims
  {
    var next := Perform(w, act);
    forall i | 0 <= i < |next.claims| ensures ClaimSpent(next.nodes, next.claims[i]) {
      if i < |w.claims| {
        assert ClaimSpent(w.nodes, w.claims[i]);
      }
    }
    if act.Claim? && ClaimSucceeds(w, act.process, act.key) {
      forall i | 0 <= i < |w.claims|
        ensures w.claims[i].key != act.key || w.claims[i].occupancy != w.nodes[act.key].occupancy
      {
        assert ClaimSpent(w.nodes, w.claims[i]);
      }
    }
  }

  /** Whatever the interleaving, guarded or not, no pending occupancy of a node is claimed twice. */
  lemma {:induction false} NoOccupancyClaimedTwice(w: World, acts: seq<Act>)
    requires ClaimsInv(w)
    ensures ClaimsInv(Runs(w, acts))
  {
    if acts != [] {
      NoOccupancyClaimedTwice(w, acts[..|acts| - 1]);
      PerformKeepsClaims(Runs(w, acts[..|acts| - 1]), acts[|acts| - 1]);
    }
  }
}
