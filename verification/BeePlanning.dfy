/**
 The planner's loop over the store, its progress, and the run in which a resume overwrites a node
 that completed after it was listed.
 */
module BeePlanning {
  import opened Wrappers
  import opened BeeManifest
  import opened BeePlanner

  // ---------- Progress ----------

  /** A task's nodes as the graph that manifest acceptance checks. */
  function TaskGraph(nodes: Nodes, task: string): Graph {
    map k | k in nodes && k.task == task :: k.node := nodes[k].dependsOn
  }

  predicate Eligible(view: Nodes, key: Key) {
    key in view && view[key].status.Pending? && DependenciesReady(view, key)
  }

  /** The first pending node of a topological order has only completed nodes before it. */
  lemma {:induction false} SomePendingIsEligible(view: Nodes, task: string, order: seq<string>) returns (key: Key)
    requires Topological(TaskGraph(view, task), order)
    requires forall n :: n in TaskGraph(view, task) ==> n in order
    requires forall k :: k in view && k.task == task ==> view[k].status.Pending? || view[k].status.Completed?
    requires exists k :: k in view && k.task == task && view[k].status.Pending?
    ensures key.task == task && Eligible(view, key)
  {
    var pending :| pending in view && pending.task == task && view[pending].status.Pending?;
    assert pending.node in TaskGraph(view, task);
    assert pending == Key(task, pending.node);
    var at :| 0 <= at < |order| && order[at] == pending.node;
    var i := 0;
    while !view[Key(task, order[i])].status.Pending?
      invariant 0 <= i <= at
      invariant forall j :: 0 <= j < |order| ==> order[j] in TaskGraph(view, task)
      invariant forall j :: 0 <= j < i ==> view[Key(task, order[j])].status.Completed?
      decreases at - i
    {
      i := i + 1;
    }
    key := Key(task, order[i]);
    assert order[i] in TaskGraph(view, task);
    forall d | d in view[key].dependsOn
      ensures Key(task, d) in view && view[Key(task, d)].status.Completed?
    {
      assert d in TaskGraph(view, task)[order[i]];
      assert d in order[..i];
    }
  }

  // ---------- The planner ----------

  predicate ActsAs(act: Act, process: nat) {
    match act
    case Execute(_, _, _) => false
    case SetTask(_, _) => false
    case _ => act.process == process
  }

  ghost predicate Foreign(script: seq<seq<Act>>, process: nat) {
    forall i, j :: 0 <= i < |script| && 0 <= j < |script[i]| ==> !ActsAs(script[i][j], process)
  }

  /** Other processes leave what this one listed and claimed alone. */
  lemma {:induction false} ForeignActKeepsView(w: World, act: Act, process: nat)
    requires !ActsAs(act, process)
    ensures process in w.views ==>
      process in Perform(w, act).views && Perform(w, act).views[process] == w.views[process]
    ensures ClaimsOf(Perform(w, act).claims, process) == ClaimsOf(w.claims, process)
  {
    var next := Perform(w, act);
    if next.claims != w.claims {
      assert next.claims[..|next.claims| - 1] == w.claims;
    }
  }

  /** The nodes a process has claimed so far, in order. */
  function ClaimsOf(claims: seq<ClaimRecord>, process: nat): seq<Key> {
    if claims == [] then []
    else
      var last := claims[|claims| - 1];
      ClaimsOf(claims[..|claims| - 1], process) + if last.process == process then [last.key] else []
  }

  /** `BeeTaskPlannerStore` as the planner `self` sees it: other processes act before each call. */
  class BeeStore {
    const self: nat
    var world: World
    var script: seq<seq<Act>>
    ghost const initial: World
    ghost var trace: seq<Act>

    /** Everything that happened so far is a run from the initial world. */
    ghost predicate Valid()
      reads this
    {
      world == Runs(initial, trace) && Foreign(script, self)
    }

    ghost function Claimed(): seq<Key>
      reads this
    {
      ClaimsOf(world.claims, self)
    }

    constructor (self: nat, world: World, script: seq<seq<Act>>)
      requires Foreign(script, self)
      ensures Valid() && this.self == self && this.world == world && this.script == script
      ensures initial == world && trace == []
    {
      this.self, this.world, this.script, initial, trace := self, world, script, world, [];
    }

    method Act(act: Act)
      requires Valid()
      modifies this
      ensures Valid() && world == Perform(old(world), act) && trace == old(trace) + [act]
      ensures script == old(script)
    {
      world := Perform(world, act);
      trace := trace + [act];
    }

    method Interleave()
      requires Valid()
      modifies this
      ensures Valid() && old(trace) <= trace && |script| <= |old(script)|
      ensures self in old(world).views ==> self in world.views && world.views[self] == old(world).views[self]
      ensures Claimed() == old(Claimed())
      ensures old(script) == [] ==> world == old(world)
    {
      if script != [] {
        var acts := script[0];
        script := script[1..];
        for i := 0 to |acts|
          invariant Valid() && old(trace) <= trace && script == old(script)[1..]
          invariant self in old(world).views ==> self in world.views && world.views[self] == old(world).views[self]
          invariant Claimed() == old(Claimed())
        {
          assert acts == old(script)[0];
          ForeignActKeepsView(world, acts[i], self);
          Act(acts[i]);
        }
      }
    }

    /** `list_nodes`: the nodes of a task in some order. */
    method ListNodes(task: string) returns (listed: seq<Key>)
      requires Valid()
      modifies this
      ensures Valid() && old(trace) <= trace && |script| <= |old(script)|
      ensures self in world.views && world.views[self] == TaskNodes(world.nodes, task)
      ensures forall k :: k in listed <==> k in world.views[self]
      ensures forall i, j :: 0 <= i < j < |listed| ==> listed[i] != listed[j]
      ensures Claimed() == old(Claimed())
      ensures old(script) == [] ==> world.nodes == old(world).nodes && world.tasks == old(world).tasks && script == []
    {
      Interleave();
      Act(List(self, task));
      listed := [];
      var rest := world.views[self].Keys;
      while rest != {}
        invariant rest <= world.views[self].Keys
        invariant forall k :: k in listed <==> k in world.views[self].Keys - rest
        invariant forall i, j :: 0 <= i < j < |listed| ==> listed[i] != listed[j]
        decreases |rest|
      {
        var k :| k in rest;
        assert k !in listed;
        rest := rest - {k};
        listed := listed + [k];
      }
    }

    /** `claim_ready_node`: true when the compare-and-set still found the node pending. */
    method ClaimReadyNode(key: Key) returns (claimed: bool)
      requires Valid() && self in world.views && Eligible(world.views[self], key)
      modifies this
      ensures Valid() && old(trace) <= trace && |script| <= |old(script)|
      ensures self in world.views && world.views[self] == old(world).views[self]
      ensures Claimed() == old(Claimed()) + if claimed then [key] else []
      ensures claimed ==> key in world.nodes && world.nodes[key].status.Ready?
      ensures old(script) == [] ==> (claimed <==> key in old(world).nodes && old(world).nodes[key].status.Pending?)
      ensures old(script) == [] && !claimed ==> world.nodes == old(world).nodes
      ensures old(script) == [] && claimed ==>
        world.nodes == old(world).nodes[key := old(world).nodes[key].(status := Ready, started := false)]
      ensures old(script) == [] ==> script == []
    {
      Interleave();
      claimed := key in world.nodes && world.nodes[key].status.Pending?;
      ghost var before := world.claims;
      Act(Claim(self, key));
      assert claimed ==> world.claims[..|world.claims| - 1] == before;
    }

    /** `update_node_status` of a lifecycle process, and `update_task_status`. */
    method Write(act: Act)
      requires Valid() && (ActsAs(act, self) || act.SetTask?) && !act.Claim? && !act.List?
      modifies this
      ensures Valid() && old(trace) <= trace && |script| <= |old(script)|
      ensures self in old(world).views ==> self in world.views && world.views[self] == old(world).views[self]
      ensures old(script) == [] ==> world == Perform(old(world), act) && script == []
    {
      Interleave();
      Act(act);
    }
  }

  /** What planning needs to yield an intent: a running task stuck only on its own pending nodes. */
  ghost predicate Startable(nodes: Nodes, task: string, order: seq<string>) {
    && Topological(TaskGraph(nodes, task), order)
    && (forall n :: n in TaskGraph(nodes, task) ==> n in order)
    && (forall k :: k in nodes && k.task == task ==> nodes[k].status.Pending? || nodes[k].status.Completed?)
    && (exists k :: k in nodes && k.task == task && nodes[k].status.Pending?)
  }

  lemma {:induction false} StartableHasEligible(nodes: Nodes, task: string, order: seq<string>)
    requires Startable(nodes, task, order)
    ensures exists k :: Eligible(TaskNodes(nodes, task), k)
  {
    assert TaskGraph(TaskNodes(nodes, task), task) == TaskGraph(nodes, task);
    var pending :| pending in nodes && pending.task == task && nodes[pending].status.Pending?;
    assert pending in TaskNodes(nodes, task);
    var key := SomePendingIsEligible(TaskNodes(nodes, task), task, order);
  }

  /** These pending nodes are ready now, and nothing else changed. */
  ghost predicate JustClaimed(before: Nodes, after: Nodes, keys: seq<Key>) {
    && after.Keys == before.Keys
    && (forall k :: k in keys ==> k in before && before[k].status.Pending?)
    && forall k :: k in before ==>
         after[k] == if k in keys then before[k].(status := Ready, started := false) else before[k]
  }

  /** What is left to claim after that. */
  lemma {:induction false} EligibleAfterClaims(before: Nodes, after: Nodes, keys: seq<Key>, task: string, k: Key)
    requires JustClaimed(before, after, keys)
    ensures Eligible(TaskNodes(after, task), k) <==> Eligible(TaskNodes(before, task), k) && k !in keys
  {
    var first, last := TaskNodes(before, task), TaskNodes(after, task);
    assert forall d :: d in first <==> d in last;
    assert forall d :: d in first ==> (first[d].status.Completed? <==> last[d].status.Completed?);
  }

  lemma {:induction false} OneMoreClaimed(before: Nodes, mid: Nodes, after: Nodes, keys: seq<Key>, key: Key)
    requires JustClaimed(before, mid, keys) && key in mid && mid[key].status.Pending?
    requires after == mid[key := mid[key].(status := Ready, started := false)]
    ensures JustClaimed(before, after, keys + [key])
  {
  }

  /** The inner loop of `plan_ready_nodes` over one task. */
  method PlanTask(store: BeeStore, task: string, maxNodes: nat, planned: seq<Key>)
      returns (intents: seq<Key>, full: bool)
    requires store.Valid() && |planned| <= maxNodes
    modifies store
    ensures store.Valid() && old(store.trace) <= store.trace
    ensures planned <= intents && |intents| <= maxNodes
    ensures full ==> |intents| == maxNodes
    ensures store.Claimed() == old(store.Claimed()) + intents[|planned|..]
    ensures old(store.script) == [] ==>
      && store.script == []
      && JustClaimed(old(store.world).nodes, store.world.nodes, intents[|planned|..])
      && (forall k :: k in intents[|planned|..] ==> Eligible(TaskNodes(old(store.world).nodes, task), k))
      && (!full ==> forall k :: Eligible(TaskNodes(old(store.world).nodes, task), k) ==> k in intents[|planned|..])
  {
    hide Runs, Foreign, Eligible;
    intents, full := planned, false;
    var listed := store.ListNodes(task);
    ghost var nodes, view := old(store.world).nodes, store.world.views[store.self];
    for i := 0 to |listed|
      invariant store.Valid() && old(store.trace) <= store.trace
      invariant store.self in store.world.views && store.world.views[store.self] == view
      invariant forall k :: k in listed <==> k in view
      invariant planned <= intents && |intents| <= maxNodes
      invariant store.Claimed() == old(store.Claimed()) + intents[|planned|..]
      invariant old(store.script) == [] ==>
        && store.script == [] && view == TaskNodes(nodes, task)
        && JustClaimed(nodes, store.world.nodes, intents[|planned|..])
      invariant forall k :: k in intents[|planned|..] ==> k in listed[..i] && Eligible(view, k)
      invariant old(store.script) == [] ==>
        forall j :: 0 <= j < i && Eligible(view, listed[j]) ==> listed[j] in intents[|planned|..]
    {
      if |intents| >= maxNodes {
        return intents, true;
      }
      var node := listed[i];
      assert node in listed && node !in listed[..i] && listed[..i + 1] == listed[..i] + [node];
      EligibleMeans(view, node);
      if !store.world.views[store.self][node].status.Pending? {
        continue;
      }
      if !DependenciesReady(store.world.views[store.self], node) {
        continue;
      }
      ghost var mid, keys := store.world.nodes, intents[|planned|..];
      var claimed := store.ClaimReadyNode(node);
      if claimed {
        intents := intents + [node];
        assert intents[|planned|..] == keys + [node];
        if old(store.script) == [] {
          OneMoreClaimed(nodes, mid, store.world.nodes, keys, node);
        }
      }
    }
    forall k | Eligible(view, k) ensures k in listed {
      EligibleIsListed(view, k);
    }
  }

  lemma {:induction false} EligibleMeans(view: Nodes, key: Key)
    requires key in view
    ensures Eligible(view, key) <==> view[key].status.Pending? && DependenciesReady(view, key)
  {
  }

  lemma {:induction false} EligibleIsListed(view: Nodes, key: Key)
    requires Eligible(view, key)
    ensures key in view
  {
  }

  /**
   `plan_ready_nodes` for the running tasks it listed. At most `maxNodes` intents are returned, and they are
   exactly the nodes this planner claimed, in order, whatever other processes do. Left alone, it claims only
   nodes that were eligible, all of them unless it stops at `maxNodes`, and changes nothing else; so it returns
   none only when no listed task is startable.
   */
  method PlanReadyNodes(store: BeeStore, tasks: seq<string>, maxNodes: nat) returns (intents: seq<Key>)
    requires store.Valid() && maxNodes > 0
    modifies store
    ensures store.Valid() && old(store.trace) <= store.trace
    ensures |intents| <= maxNodes
    ensures store.Claimed() == old(store.Claimed()) + intents
    ensures old(store.script) == [] ==>
      && JustClaimed(old(store.world).nodes, store.world.nodes, intents)
      && (forall k :: k in intents ==> k.task in tasks && Eligible(TaskNodes(old(store.world).nodes, k.task), k))
      && (|intents| < maxNodes ==>
            forall t, k :: t in tasks && Eligible(TaskNodes(old(store.world).nodes, t), k) ==> k in intents)
    ensures old(store.script) == [] && intents == [] ==>
      forall t, order :: t in tasks ==> !Startable(old(store.world).nodes, t, order)
  {
    hide Runs, Foreign, Eligible;
    intents := [];
    ghost var nodes := store.world.nodes;
    for i := 0 to |tasks|
      invariant store.Valid() && old(store.trace) <= store.trace
      invariant |intents| <= maxNodes
      invariant store.Claimed() == old(store.Claimed()) + intents
      invariant old(store.script) == [] ==> store.script == [] && JustClaimed(nodes, store.world.nodes, intents)
      invariant old(store.script) == [] ==>
        forall k :: k in intents ==> k.task in tasks && Eligible(TaskNodes(nodes, k.task), k)
      invariant old(store.script) == [] ==> forall j, k ::
        0 <= j < i && Eligible(TaskNodes(nodes, tasks[j]), k) ==> k in intents
    {
      ghost var before, mid := intents, store.world.nodes;
      var full;
      intents, full := PlanTask(store, tasks[i], maxNodes, intents);
      assert intents == before + intents[|before|..];
      if old(store.script) == [] {
        forall k
          ensures Eligible(TaskNodes(mid, tasks[i]), k)
             <==> Eligible(TaskNodes(nodes, tasks[i]), k) && k !in before
        {
          EligibleAfterClaims(nodes, mid, before, tasks[i], k);
        }
        forall k | Eligible(TaskNodes(nodes, tasks[i]), k) ensures k.task == tasks[i] {
          EligibleIsListed(TaskNodes(nodes, tasks[i]), k);
        }
        ClaimedOn(nodes, mid, store.world.nodes, before, intents[|before|..]);
      }
      if full {
        assert intents != [];
        return;
      }
    }
    if old(store.script) == [] && intents == [] {
      forall t, order | t in tasks ensures !Startable(nodes, t, order) {
        var j :| 0 <= j < |tasks| && tasks[j] == t;
        assert forall k :: Eligible(TaskNodes(nodes, tasks[j]), k) ==> k in intents;
        NothingStartable(nodes, t, order);
      }
    }
  }

  lemma {:induction false} NothingStartable(nodes: Nodes, task: string, order: seq<string>)
    requires forall k :: !Eligible(TaskNodes(nodes, task), k)
    ensures !Startable(nodes, task, order)
  {
    if Startable(nodes, task, order) {
      StartableHasEligible(nodes, task, order);
    }
  }

  lemma {:induction false} ClaimedOn(before: Nodes, mid: Nodes, after: Nodes, first: seq<Key>, more: seq<Key>)
    requires JustClaimed(before, mid, first) && JustClaimed(mid, after, more)
    ensures JustClaimed(before, after, first + more)
  {
  }

  // ---------- The lifecycle controller ----------

  function SweepAct(process: nat, key: Key, cancel: bool): Act {
    if cancel then CancelWrite(process, key) else ResumeWrite(process, key)
  }

  /** What a resume or a cancel makes of one node when nothing changed since the listing. */
  function Swept(node: Node, cancel: bool): Node {
    match Overwrite(node, SweepAct(0, Key("", ""), cancel))
    case None => node
    case Some(to) => Written(node, to, false)
  }

  /** A resume sends running and failed nodes back to pending; a cancel skips all but the completed ones. */
  lemma {:induction false} SweepMeans(node: Node)
    ensures Swept(node, false)
         == if node.status == Running || node.status == Failed
            then Node(Pending, node.dependsOn, false, node.occupancy + 1) else node
    ensures Swept(node, true)
         == if node.status == Completed then node else Node(Skipped, node.dependsOn, false, node.occupancy)
  {
  }

  method SweepNode(store: BeeStore, node: Key, cancel: bool)
    requires store.Valid() && store.self in store.world.views && node in store.world.views[store.self]
    modifies store
    ensures store.Valid() && old(store.trace) <= store.trace
    ensures store.self in store.world.views && store.world.views[store.self] == old(store.world).views[store.self]
    ensures old(store.script) == [] && node in old(store.world).nodes
            && old(store.world).nodes[node] == old(store.world).views[store.self][node] ==>
      && store.script == [] && store.world.tasks == old(store.world).tasks
      && store.world.nodes == old(store.world).nodes[node := Swept(old(store.world).nodes[node], cancel)]
  {
    hide Runs, Foreign;
    if Overwrite(store.world.views[store.self][node], SweepAct(store.self, node, cancel)).Some? {
      store.Write(SweepAct(store.self, node, cancel));
    } else {
      assert node in store.world.nodes ==> store.world.nodes == store.world.nodes[node := store.world.nodes[node]];
    }
  }

  /** The loop over the listed nodes that `resume_task` and `_close_task` share. */
  method SweepNodes(store: BeeStore, task: string, cancel: bool)
    requires store.Valid()
    modifies store
    ensures store.Valid() && old(store.trace) <= store.trace
    ensures old(store.script) == [] ==>
      && store.script == []
      && store.world.tasks == old(store.world).tasks
      && store.world.nodes.Keys == old(store.world).nodes.Keys
      && forall k :: k in store.world.nodes ==>
           var before := old(store.world).nodes[k];
           store.world.nodes[k] == if k.task == task then Swept(before, cancel) else before
  {
    hide Runs, Foreign, Swept;
    var listed := store.ListNodes(task);
    ghost var view := store.world.views[store.self];
    for i := 0 to |listed|
      invariant store.Valid() && old(store.trace) <= store.trace
      invariant store.self in store.world.views && store.world.views[store.self] == view
      invariant old(store.script) == [] ==>
        && store.script == [] && view == TaskNodes(old(store.world).nodes, task)
        && store.world.tasks == old(store.world).tasks
        && store.world.nodes.Keys == old(store.world).nodes.Keys
      invariant old(store.script) == [] ==> forall k :: k in store.world.nodes ==>
        store.world.nodes[k] == if k in listed[..i] then Swept(view[k], cancel) else old(store.world).nodes[k]
    {
      var node := listed[i];
      assert node in listed && node !in listed[..i];
      assert listed[..i + 1] == listed[..i] + [node];
      SweepNode(store, node, cancel);
    }
    assert listed[..|listed|] == listed;
  }

  predicate Terminal(status: TaskStatus) {
    status.TaskCompleted? || status.TaskCancelled?
  }

  /**
   `resume_task` and `_close_task`: refused for a missing or terminal task; left alone, a resume
   makes exactly the running and failed nodes pending again, and a cancel skips exactly the nodes
   that are not completed, so that what was safe stays safe.
   */
  method UpdateTask(store: BeeStore, task: string, cancel: bool) returns (accepted: bool)
    requires store.Valid()
    modifies store
    ensures store.Valid() && old(store.trace) <= store.trace
    ensures old(store.script) == [] ==>
      && (accepted <==> task in old(store.world).tasks && !Terminal(old(store.world).tasks[task]))
      && store.world.nodes.Keys == old(store.world).nodes.Keys
      && (!accepted ==> store.world == old(store.world))
      && (accepted ==>
            store.world.tasks == old(store.world).tasks[task := if cancel then TaskCancelled else TaskRunning])
      && (accepted ==> forall k :: k in store.world.nodes ==>
            var before := old(store.world).nodes[k];
            store.world.nodes[k] == if k.task == task then Swept(before, cancel) else before)
    ensures old(store.script) == [] && DependenciesDone(old(store.world).nodes) ==> DependenciesDone(store.world.nodes)
  {
    store.Interleave();
    if task !in store.world.tasks || Terminal(store.world.tasks[task]) {
      return false;
    }
    store.Write(SetTask(task, if cancel then TaskCancelled else TaskRunning));
    SweepNodes(store, task, cancel);
    accepted := true;
    if old(store.script) == [] && DependenciesDone(old(store.world).nodes) {
      SweepIsSafe(old(store.world).nodes, store.world.nodes, task, cancel);
    }
  }

  lemma {:induction false} SweepIsSafe(before: Nodes, after: Nodes, task: string, cancel: bool)
    requires DependenciesDone(before) && after.Keys == before.Keys
    requires forall k :: k in after ==> after[k] == if k.task == task then Swept(before[k], cancel) else before[k]
    ensures DependenciesDone(after)
  {
    forall k | k in after ensures NodeSafe(after, k) {
      assert NodeSafe(before, k);
    }
  }

  /** `retry_node`: only a failed node goes back to pending. */
  method RetryNode(store: BeeStore, key: Key) returns (accepted: bool)
    requires store.Valid()
    modifies store
    ensures store.Valid() && old(store.trace) <= store.trace
    ensures old(store.script) == [] ==>
      && (accepted <==> && key.task in old(store.world).tasks && key in old(store.world).nodes
                        && old(store.world).nodes[key].status.Failed?)
      && var before := old(store.world).nodes;
         store.world.nodes == if accepted then before[key := Written(before[key], Pending, false)] else before
  {
    store.Interleave();
    if key.task !in store.world.tasks {
      return false;
    }
    var listed := store.ListNodes(key.task);
    var view := store.world.views[store.self];
    if key !in view || !view[key].status.Failed? {
      return false;
    }
    store.Write(RetryWrite(store.self, key));
    return true;
  }

  // ---------- A lifecycle write that comes too late ----------

  const FIRST := Key("task", "first")
  const SECOND := Key("task", "second")

  ghost predicate IsPair(w: World, first: NodeStatus, second: NodeStatus) {
    && w.nodes.Keys == {FIRST, SECOND}
    && w.nodes[FIRST].status == first && w.nodes[FIRST].dependsOn == {}
    && w.nodes[SECOND].status == second && w.nodes[SECOND].dependsOn == {"first"}
  }

  ghost predicate Listed(w: World, process: nat, first: NodeStatus, second: NodeStatus) {
    && process in w.views && w.views[process].Keys == {FIRST, SECOND}
    && w.views[process][FIRST].status == first && w.views[process][FIRST].dependsOn == {}
    && w.views[process][SECOND].status == second && w.views[process][SECOND].dependsOn == {"first"}
  }

  function LateWrite(): seq<Act> {
    [List(0, "task"), Claim(0, FIRST), Execute(FIRST, Running, true), List(1, "task"),
     Execute(FIRST, Completed, true), List(0, "task"), Claim(0, SECOND), ResumeWrite(1, FIRST)]
  }

  lemma {:induction false} RunsNext(w: World, acts: seq<Act>, k: nat)
    requires k < |acts|
    ensures Runs(w, acts[..k + 1]) == Perform(Runs(w, acts[..k]), acts[k])
  {
    assert acts[..k + 1][..k] == acts[..k];
  }

  lemma {:induction false} PairListed(w: World, process: nat, first: NodeStatus, second: NodeStatus)
    requires IsPair(w, first, second)
    ensures var next := Perform(w, List(process, "task"));
      && IsPair(next, first, second) && Listed(next, process, first, second)
      && forall p :: p != process && p in w.views ==> p in next.views && next.views[p] == w.views[p]
  {
  }

  lemma {:induction false} PairMoves(w: World, act: Act, first: NodeStatus, second: NodeStatus)
    requires IsPair(w, first, second)
    ensures act == Execute(FIRST, Running, true) && first == Ready ==> IsPair(Perform(w, act), Running, second)
    ensures act == Execute(FIRST, Completed, true) && first == Running ==> IsPair(Perform(w, act), Completed, second)
    ensures act == Claim(0, FIRST) && first == Pending && Listed(w, 0, Pending, Pending)
        ==> IsPair(Perform(w, act), Ready, second)
    ensures act == Claim(0, SECOND) && second == Pending && Listed(w, 0, Completed, Pending)
        ==> IsPair(Perform(w, act), first, Ready)
    ensures act == ResumeWrite(1, FIRST) && Listed(w, 1, Running, Pending) ==> IsPair(Perform(w, act), Pending, second)
    ensures !act.List? ==> Perform(w, act).views == w.views
  {
    assert Key("task", "first") == FIRST;
  }

  /** The node runs when the resume lists it. */
  lemma {:induction false} LateRunBegins(w: World)
    requires IsPair(w, Pending, Pending)
    ensures IsPair(Runs(w, LateWrite()[..4]), Running, Pending)
    ensures Listed(Runs(w, LateWrite()[..4]), 1, Running, Pending)
  {
    hide Perform, IsPair, Listed, Runs;
    var acts := LateWrite();
    NothingHappenedYet(w, acts);
    RunsNext(w, acts, 0);
    PairListed(w, 0, Pending, Pending);
    RunsNext(w, acts, 1);
    PairMoves(Runs(w, acts[..1]), acts[1], Pending, Pending);
    RunsNext(w, acts, 2);
    PairMoves(Runs(w, acts[..2]), acts[2], Ready, Pending);
    RunsNext(w, acts, 3);
    PairListed(Runs(w, acts[..3]), 1, Running, Pending);
  }

  lemma {:induction false} LateRunEnds(w: World, w4: World)
    requires IsPair(w4, Running, Pending) && Listed(w4, 1, Running, Pending)
    requires w4 == Runs(w, LateWrite()[..4])
    ensures IsPair(Runs(w, LateWrite()), Pending, Ready)
  {
    hide Perform, IsPair, Runs;
    var acts := LateWrite();
    RunsNext(w, acts, 4);
    PairMoves(w4, acts[4], Running, Pending);
    RunsNext(w, acts, 5);
    PairListed(Runs(w, acts[..5]), 0, Completed, Pending);
    RunsNext(w, acts, 6);
    PairMoves(Runs(w, acts[..6]), acts[6], Completed, Pending);
    RunsNext(w, acts, 7);
    PairMoves(Runs(w, acts[..7]), acts[7], Completed, Ready);
    assert acts[..8] == acts;
  }

  /**
   A planner and a resume interleave: the resume lists the first node as running, the node completes,
   the planner claims its dependent, and the resume's write makes the first node pending again.
   */
  lemma {:induction false} LateResumeBreaksSafety(w: World)
    requires IsPair(w, Pending, Pending) && w.views == map[]
    ensures SafeInv(w)
    ensures IsPair(Runs(w, LateWrite()), Pending, Ready)
    ensures !DependenciesDone(Runs(w, LateWrite()).nodes)
  {
    LateRunBegins(w);
    LateRunEnds(w, Runs(w, LateWrite()[..4]));
    BrokenPair(Runs(w, LateWrite()), Pending);
  }

  // ---------- A claim that comes too late ----------

  function LateClaim(): seq<Act> {
    [List(1, "task"), Execute(FIRST, Completed, true), List(0, "task"), ResumeWrite(1, FIRST), Claim(0, SECOND)]
  }

  lemma {:induction false} UnclaimedPairIsSafe(w: World, first: NodeStatus)
    requires IsPair(w, first, Pending)
    ensures DependenciesDone(w.nodes)
  {
    assert forall k :: k in w.nodes ==> k == FIRST || k == SECOND;
  }

  lemma {:induction false} BrokenPair(w: World, first: NodeStatus)
    requires IsPair(w, first, Ready) && !first.Completed?
    ensures !DependenciesDone(w.nodes)
  {
    assert Key("task", "first") == FIRST;
    assert !Done(w.nodes, Key("task", "first"));
    assert !NodeSafe(w.nodes, SECOND);
  }

  lemma {:induction false} LateClaimBegins(w: World)
    requires IsPair(w, Running, Pending)
    ensures IsPair(Runs(w, LateClaim()[..1]), Running, Pending)
    ensures IsPair(Runs(w, LateClaim()[..2]), Completed, Pending)
    ensures IsPair(Runs(w, LateClaim()[..3]), Completed, Pending)
    ensures Listed(Runs(w, LateClaim()[..3]), 0, Completed, Pending)
    ensures Listed(Runs(w, LateClaim()[..3]), 1, Running, Pending)
  {
    hide Perform, IsPair, Runs;
    var acts := LateClaim();
    NothingHappenedYet(w, acts);
    RunsNext(w, acts, 0);
    PairListed(w, 1, Running, Pending);
    RunsNext(w, acts, 1);
    PairMoves(Runs(w, acts[..1]), acts[1], Running, Pending);
    RunsNext(w, acts, 2);
    PairListed(Runs(w, acts[..2]), 0, Completed, Pending);
  }

  lemma {:induction false} LateClaimEnds(w: World)
    requires IsPair(Runs(w, LateClaim()[..3]), Completed, Pending)
    requires Listed(Runs(w, LateClaim()[..3]), 0, Completed, Pending)
    requires Listed(Runs(w, LateClaim()[..3]), 1, Running, Pending)
    ensures IsPair(Runs(w, LateClaim()[..4]), Pending, Pending)
    ensures IsPair(Runs(w, LateClaim()), Pending, Ready)
  {
    hide Perform, IsPair, Runs;
    var acts := LateClaim();
    RunsNext(w, acts, 3);
    PairMoves(Runs(w, acts[..3]), acts[3], Completed, Pending);
    RunsNext(w, acts, 4);
    PairMoves(Runs(w, acts[..4]), acts[4], Pending, Pending);
    assert acts[..5] == acts;
  }

  /**
   The write of the resume takes the completed node away from nobody, since its dependant is still
   pending; but the planner has listed both, and claims the dependant afterwards.
   */
  lemma {:induction false} LateClaimBreaksSafety(w: World)
    requires IsPair(w, Running, Pending) && w.views == map[]
    ensures SafeInv(w) && AlwaysDone(w, LateClaim()[..4])
    ensures IsPair(Runs(w, LateClaim()), Pending, Ready) && !DependenciesDone(Runs(w, LateClaim()).nodes)
  {
    hide IsPair, Listed, Runs;
    var acts := LateClaim();
    LateClaimBegins(w);
    LateClaimEnds(w);
    UnclaimedPairIsSafe(w, Running);
    UnclaimedPairIsSafe(Runs(w, acts[..1]), Running);
    UnclaimedPairIsSafe(Runs(w, acts[..2]), Completed);
    UnclaimedPairIsSafe(Runs(w, acts[..3]), Completed);
    UnclaimedPairIsSafe(Runs(w, acts[..4]), Pending);
    NothingHappenedYet(w, acts);
    forall i | 0 <= i <= 4 ensures DependenciesDone(Runs(w, acts[..4][..i]).nodes) {
      assert acts[..4][..i] == acts[..i];
    }
    BrokenPair(Runs(w, acts), Pending);
  }

  lemma {:induction false} NothingHappenedYet(w: World, acts: seq<Act>)
    ensures Runs(w, acts[..0]) == w
  {
  }
}
