/**
 What the acts of an approval session leave behind: which approvals are remembered, in which order the
 requests wait, and how far a consumption moves the cursor.
 */
module ApprovalEffects {
  import opened Wrappers
  import opened Approvals

  predicate Waits(s: State, id: string) {
    id in s.pending && s.pending[id].response.None?
  }

  /** The request waited before and has this decision now. */
  predicate Answered(before: State, after: State, id: string, d: Decision) {
    Waits(before, id) && id in after.pending && after.pending[id].response == Some(d)
  }

  // ---------- Which approvals are remembered ----------

  /** An approval for more than once was recorded for a request of this agent and tool. */
  ghost predicate Granted(before: State, after: State, agent: string, tool: string) {
    exists id, d :: Answered(before, after, id, d) && d.approved && d.scope != Once
                    && before.pending[id].request.agent == agent && before.pending[id].request.tool == tool
  }

  ghost predicate Remembers(before: State, after: State) {
    forall agent, tool :: (agent, tool) in after.approved
      <==> (agent, tool) in before.approved || Granted(before, after, agent, tool)
  }

  /** Requests stay what they are, and a response once recorded stays. */
  ghost predicate Settles(before: State, after: State) {
    && after.pending.Keys == before.pending.Keys
    && forall id :: id in before.pending ==>
         && after.pending[id].request == before.pending[id].request
         && (before.pending[id].response.Some? ==> after.pending[id] == before.pending[id])
  }

  lemma {:induction false} RespondRemembers(s: State, d: Decision)
    ensures Settles(s, Respond(s, d)) && Remembers(s, Respond(s, d))
  {
    var next := Respond(s, d);
    forall agent, tool
      ensures (agent, tool) in next.approved <==> (agent, tool) in s.approved || Granted(s, next, agent, tool)
    {
      if Records(s, d) && d.approved && d.scope != Once {
        assert Answered(s, next, d.request, d);
      }
    }
  }

  lemma {:induction false} RemembersOn(a: State, b: State, c: State)
    requires Settles(a, b) && Settles(b, c) && Remembers(a, b) && Remembers(b, c)
    ensures Settles(a, c) && Remembers(a, c)
  {
    forall agent, tool
      ensures (agent, tool) in c.approved <==> (agent, tool) in a.approved || Granted(a, c, agent, tool)
    {
      if Granted(a, b, agent, tool) {
        var id, d :| Answered(a, b, id, d) && d.approved && d.scope != Once
                     && a.pending[id].request.agent == agent && a.pending[id].request.tool == tool;
        assert Answered(a, c, id, d);
      }
      if Granted(b, c, agent, tool) {
        var id, d :| Answered(b, c, id, d) && d.approved && d.scope != Once
                     && b.pending[id].request.agent == agent && b.pending[id].request.tool == tool;
        assert Answered(a, c, id, d);
      }
      if Granted(a, c, agent, tool) {
        var id, d :| Answered(a, c, id, d) && d.approved && d.scope != Once
                     && a.pending[id].request.agent == agent && a.pending[id].request.tool == tool;
        assert Answered(a, b, id, d) || Answered(b, c, id, d);
      }
    }
  }

  lemma {:induction false} BatchRemembers(t: Tally, positions: seq<nat>)
    requires Consumable(t.state.bus, positions)
    ensures var u := ConsumeAll(t, positions).state; Settles(t.state, u) && Remembers(t.state, u)
    decreases |positions|
  {
    hide Remembers, Settles;
    if positions == [] {
      SameRemembers(t.state);
    } else {
      var front, last := positions[..|positions| - 1], positions[|positions| - 1];
      BatchRemembers(t, front);
      var mid := ConsumeAll(t, front);
      OneRemembers(mid, last);
      RemembersOn(t.state, mid.state, ConsumeOne(mid, last).state);
    }
  }

  lemma {:induction false} SameRemembers(s: State)
    ensures Settles(s, s) && Remembers(s, s)
  {
    forall agent, tool ensures !Granted(s, s, agent, tool) {
    }
  }

  lemma {:induction false} OneRemembers(t: Tally, position: nat)
    requires position < |t.state.bus| && t.state.bus[position].DecisionMessage?
    ensures Settles(t.state, ConsumeOne(t, position).state) && Remembers(t.state, ConsumeOne(t, position).state)
  {
    hide Remembers, Settles, Respond;
    SameRemembers(t.state);
    if t.state.bus[position].decision.Some? {
      RespondRemembers(t.state, t.state.bus[position].decision.value);
    }
  }

  /** The cursor, the bus and the queue have no say in what is remembered. */
  lemma {:induction false} SameRecords(a: State, b: State, c: State)
    requires Remembers(a, b) && Settles(a, b) && c.approved == b.approved && c.pending == b.pending
    ensures Remembers(a, c) && Settles(a, c)
  {
    forall agent, tool ensures Granted(a, c, agent, tool) <==> Granted(a, b, agent, tool) {
      forall id, d ensures Answered(a, c, id, d) <==> Answered(a, b, id, d) {
      }
    }
  }

  /**
   The set of approvals that is remembered grows by just those that an act records and that are meant for
   more than once: an approval for once, and a rejection, are never remembered, and nothing is forgotten.
   */
  lemma {:induction false} ActRemembersExactly(s: State, act: Act)
    ensures Remembers(s, Perform(s, act))
  {
    hide Remembers, Settles, ConsumeAll, Respond;
    SameRemembers(s);
    var next := Perform(s, act);
    match act {
      case ConsumeBatch(limit) =>
        if s.cursor <= |s.bus| {
          var positions := Limited(DecisionsAfter(s.bus, s.cursor), limit);
          BatchRemembers(Tally(s, s.cursor, [], 0), positions);
          SameRecords(s, ConsumeAll(Tally(s, s.cursor, [], 0), positions).state, next);
        }
      case ApplyRead(request, p) =>
        RespondRemembers(s, p.decision);
        if next.approved == s.approved && next.pending == s.pending {
          SameRecords(s, s, next);
        } else {
          SameRecords(s, Respond(s, p.decision), next);
        }
      case Begin(request) => LeavingRemembersNothing(s, next);
      case EndWait(id) => LeavingRemembersNothing(s, next);
      case _ => SameRecords(s, s, next);
    }
  }

  lemma {:induction false} LeavingRemembersNothing(s: State, next: State)
    requires next.approved == s.approved
    requires forall id :: id in next.pending ==>
      next.pending[id].response.None? || (id in s.pending && next.pending[id] == s.pending[id])
    ensures Remembers(s, next)
  {
    forall agent, tool ensures !Granted(s, next, agent, tool) {
    }
  }

  // ---------- In which order requests wait ----------

  function Staying(order: seq<string>, ids: set<string>): seq<string> {
    if order == [] then [] else (if order[0] in ids then [order[0]] else []) + Staying(order[1..], ids)
  }

  lemma {:induction false} DroppedIsStaying(order: seq<string>, id: string, ids: set<string>)
    requires id !in ids && forall x :: x in order && x != id ==> x in ids
    ensures Dropped(order, id) == Staying(order, ids)
  {
    if order != [] {
      assert order == [order[0]] + order[1..];
      DroppedIsStaying(order[1..], id, ids);
    }
  }

  lemma {:induction false} AllStay(order: seq<string>, ids: set<string>)
    requires forall x :: x in order ==> x in ids
    ensures Staying(order, ids) == order
  {
    if order != [] {
      assert order == [order[0]] + order[1..];
      AllStay(order[1..], ids);
    }
  }

  lemma {:induction false} StayTwice(order: seq<string>, ids: set<string>, fewer: set<string>)
    requires fewer <= ids
    ensures Staying(Staying(order, ids), fewer) == Staying(order, fewer)
  {
    if order != [] {
      StayTwice(order[1..], ids, fewer);
      var rest := Staying(order[1..], ids);
      if order[0] in ids {
        assert ([order[0]] + rest)[1..] == rest;
      } else {
        assert [] + rest == rest;
      }
    }
  }

  /** The queue after an act, before a request that begins: those that still wait, in the order they had. */
  ghost predicate KeepsOrder(before: seq<string>, after: seq<string>) {
    after == Staying(before, set x | x in after)
  }

  lemma {:induction false} DroppedKeepsOrder(order: seq<string>, id: string)
    ensures KeepsOrder(order, Dropped(order, id))
  {
    DroppedMembers(order, id);
    DroppedIsStaying(order, id, set x | x in Dropped(order, id));
  }

  lemma {:induction false} KeepsOrderOn(a: seq<string>, b: seq<string>, c: seq<string>)
    requires KeepsOrder(a, b) && KeepsOrder(b, c)
    ensures KeepsOrder(a, c)
  {
    var ids, fewer := set x | x in b, set x | x in c;
    forall x | x in c ensures x in b {
      StayingMembers(b, fewer);
    }
    StayTwice(a, ids, fewer);
  }

  lemma {:induction false} StayingMembers(order: seq<string>, ids: set<string>)
    ensures forall x :: x in Staying(order, ids) <==> x in order && x in ids
  {
    if order != [] {
      assert order == [order[0]] + order[1..];
      StayingMembers(order[1..], ids);
    }
  }

  lemma {:induction false} SameOrder(order: seq<string>)
    ensures KeepsOrder(order, order)
  {
    AllStay(order, set x | x in order);
  }

  lemma {:induction false} BatchKeepsOrder(t: Tally, positions: seq<nat>)
    requires Consumable(t.state.bus, positions)
    ensures KeepsOrder(t.state.order, ConsumeAll(t, positions).state.order)
    decreases |positions|
  {
    hide KeepsOrder, Dropped;
    SameOrder(t.state.order);
    if positions != [] {
      var front, last := positions[..|positions| - 1], positions[|positions| - 1];
      BatchKeepsOrder(t, front);
      var mid := ConsumeAll(t, front);
      if mid.state.bus[last].decision.Some? {
        DroppedKeepsOrder(mid.state.order, mid.state.bus[last].decision.value.request);
      }
      SameOrder(mid.state.order);
      KeepsOrderOn(t.state.order, mid.state.order, ConsumeOne(mid, last).state.order);
    }
  }

  /** Requests wait first come, first served: a new one goes to the end, and no other overtakes any. */
  lemma {:induction false} ActKeepsOrder(s: State, act: Act)
    ensures var next := Perform(s, act).order;
            if act.Begin? then
              && next != [] && next[|next| - 1] == act.request.id && act.request.id !in next[..|next| - 1]
              && KeepsOrder(s.order, next[..|next| - 1])
            else KeepsOrder(s.order, next)
  {
    hide KeepsOrder, Dropped, ConsumeAll;
    SameOrder(s.order);
    match act {
      case Begin(request) =>
        DroppedKeepsOrder(s.order, request.id);
        DroppedMembers(s.order, request.id);
        assert Perform(s, act).order[..|Perform(s, act).order| - 1] == Dropped(s.order, request.id);
      case ConsumeBatch(limit) =>
        if s.cursor <= |s.bus| {
          BatchKeepsOrder(Tally(s, s.cursor, [], 0), Limited(DecisionsAfter(s.bus, s.cursor), limit));
        }
      case ApplyRead(_, p) => DroppedKeepsOrder(s.order, p.decision.request);
      case EndWait(id) => DroppedKeepsOrder(s.order, id);
      case _ =>
    }
  }

  // ---------- How far a consumption moves the cursor ----------

  /** The message at this place decides a request that the session does not know. */
  predicate IsEarly(s: State, position: nat) {
    && position < |s.bus| && s.bus[position].DecisionMessage? && s.bus[position].decision.Some?
    && s.bus[position].decision.value.request !in s.pending
  }

  /** The message at this place decides a request that waits. */
  predicate IsDue(s: State, position: nat) {
    && position < |s.bus| && s.bus[position].DecisionMessage? && s.bus[position].decision.Some?
    && Waits(s, s.bus[position].decision.value.request)
  }

  lemma {:induction false} BatchCounts(s: State, positions: seq<nat>)
    requires Consumable(s.bus, positions)
    ensures var t := ConsumeAll(Tally(s, s.cursor, [], 0), positions);
            && t.state.pending.Keys == s.pending.Keys
            && (t.deferred > 0 <==> exists i :: 0 <= i < |positions| && IsEarly(s, positions[i]))
            && (t.applied != [] <==> exists i :: 0 <= i < |positions| && IsDue(s, positions[i]))
            && t.cursor == (if positions == [] then s.cursor else positions[|positions| - 1] + 1)
            && (t.applied == [] ==> t.state == s)
    decreases |positions|
  {
    if positions != [] {
      hide ConsumeAll, ConsumeOne, IsEarly, IsDue;
      var n, front := |positions| - 1, positions[..|positions| - 1];
      BatchCounts(s, front);
      var t := ConsumeAll(Tally(s, s.cursor, [], 0), front);
      assert ConsumeAll(Tally(s, s.cursor, [], 0), positions) == ConsumeOne(t, positions[n]) by {
        BatchUnfolds(Tally(s, s.cursor, [], 0), positions);
      }
      OneCounts(s, t, positions[n]);
      assert forall i :: 0 <= i < n ==> front[i] == positions[i];
    }
  }

  lemma {:induction false} BatchUnfolds(t: Tally, positions: seq<nat>)
    requires positions != [] && Consumable(t.state.bus, positions)
    ensures ConsumeAll(t, positions)
         == ConsumeOne(ConsumeAll(t, positions[..|positions| - 1]), positions[|positions| - 1])
  {
    hide ConsumeOne;
  }

  lemma {:induction false} OneCounts(s: State, t: Tally, position: nat)
    requires t.state.bus == s.bus && t.state.pending.Keys == s.pending.Keys && (t.applied == [] ==> t.state == s)
    requires position < |s.bus| && s.bus[position].DecisionMessage?
    ensures var u := ConsumeOne(t, position);
            && u.state.pending.Keys == s.pending.Keys && u.cursor == position + 1
            && (u.deferred > 0 <==> t.deferred > 0 || IsEarly(s, position))
            && (t.applied == [] ==> (u.applied != [] <==> IsDue(s, position)))
            && (t.applied != [] ==> u.applied != [])
            && (u.applied == [] ==> u.state == s)
  {
  }

  /**
   A consumption moves the cursor behind the last message that it read, unless some decision among them was
   for a request that the session does not know yet and none for one that waits: then it stays.
   */
  lemma {:induction false} ConsumptionMovesExactly(s: State, limit: Option<nat>)
    requires s.cursor <= |s.bus|
    ensures var batch, next := Limited(DecisionsAfter(s.bus, s.cursor), limit), Consume(s, limit);
            var early := exists i :: 0 <= i < |batch| && IsEarly(s, batch[i]);
            var due := exists i :: 0 <= i < |batch| && IsDue(s, batch[i]);
            next.cursor == if batch == [] || (early && !due) then s.cursor else batch[|batch| - 1] + 1
  {
    hide ConsumeAll, IsEarly, IsDue;
    BatchCounts(s, Limited(DecisionsAfter(s.bus, s.cursor), limit));
  }
}
