/**
 The approval services of one session: their methods update the session and its bus, and other
 tasks of the process act at every await (`coding_agent/approval/runtime_messages.py`,
 `requests.py`, `coordinator.py`, `store.py`).
 */
module ApprovalSessions {
  import opened Wrappers
  import opened Approvals

  lemma {:induction false} DecisionsFrom(bus: seq<BusMessage>, k: nat)
    requires k <= |bus|
    ensures k == |bus| ==> DecisionsAfter(bus, k) == []
    ensures k < |bus| ==>
      DecisionsAfter(bus, k) == (if bus[k].DecisionMessage? then [k] else []) + DecisionsAfter(bus, k + 1)
  {
  }

  /** `InMemoryRuntimeMessageBus`: the sequence number of a message is its position plus one. */
  class InMemoryBus {
    var messages: seq<BusMessage>
    var messageIds: set<MessageId>

    ghost predicate Valid()
      reads this
    {
      forall id :: id in messageIds <==> OnBus(messages, id)
    }

    constructor ()
      ensures Valid() && messages == []
    {
      messages, messageIds := [], {};
    }

    /** `None` is the raised `DuplicateRuntimeMessageError`. */
    method Publish(m: BusMessage) returns (sequence: Option<nat>)
      requires Valid()
      modifies this
      ensures Valid()
      ensures sequence.None? <==> OnBus(old(messages), m.id)
      ensures sequence.None? ==> messages == old(messages)
      ensures sequence.Some? ==> messages == old(messages) + [m] && sequence.value == |messages|
    {
      if m.id in messageIds {
        return None;
      }
      messages, messageIds := messages + [m], messageIds + {m.id};
      forall id ensures id in messageIds <==> OnBus(messages, id) {
        if id in messageIds && id != m.id {
          var k :| 0 <= k < |old(messages)| && old(messages)[k].id == id;
          assert messages[k].id == id;
        }
        assert messages[|messages| - 1].id == m.id;
      }
      return Some(|messages|);
    }

    /** `consume_after` for decision messages: the positions of the selected messages. */
    method ConsumeAfter(cursor: nat, limit: Option<nat>) returns (positions: seq<nat>)
      requires cursor <= |messages|
      ensures positions == Limited(DecisionsAfter(messages, cursor), limit)
    {
      hide Limited, DecisionsAfter;
      positions := [];
      var log, k := messages, cursor;
      while k < |log|
        invariant cursor <= k <= |log|
        invariant positions + DecisionsAfter(log, k) == DecisionsAfter(log, cursor)
      {
        DecisionsFrom(log, k);
        if log[k].DecisionMessage? {
          positions := positions + [k];
        }
        k := k + 1;
      }
      DecisionsFrom(log, k);
      assert positions + [] == positions;
      positions := Limited(positions, limit);
    }
  }

  class ApprovalSession {
    const bus: InMemoryBus
    var cursor: nat
    var pending: map<string, Waiting>
    var order: seq<string>
    var approved: set<(string, string)>
    /** What the other tasks of the process do at the next awaits. */
    var script: seq<seq<Act>>

    function Now(): State
      reads this, bus
    {
      State(bus.messages, cursor, pending, order, approved)
    }

    ghost predicate Valid()
      reads this, bus
    {
      bus.Valid() && Inv(Now())
    }

    constructor (bus: InMemoryBus, script: seq<seq<Act>>)
      requires bus.Valid() && BusInv(bus.messages)
      ensures Valid() && this.bus == bus && this.script == script
      ensures Now() == State(bus.messages, 0, map[], [], {})
    {
      this.bus, this.script := bus, script;
      cursor, pending, order, approved := 0, map[], [], {};
    }

    // ---------- Coordinator and store ----------

    /** `_drop_request_id`. */
    method DropRequestId(id: string)
      modifies this`order
      ensures order == Dropped(old(order), id)
    {
      var kept := [];
      var i := 0;
      while i < |order|
        invariant 0 <= i <= |order|
        invariant kept + Dropped(order[i..], id) == Dropped(order, id)
      {
        assert order[i..][1..] == order[i + 1..];
        if order[i] != id {
          kept := kept + [order[i]];
        }
        i := i + 1;
      }
      assert order[i..] == [];
      order := kept;
    }

    method AddRequest(request: Request)
      requires Valid()
      modifies this`order, this`pending
      ensures Now() == Perform(old(Now()), Begin(request)) && Valid()
      ensures request.id in pending
    {
      PerformKeepsInv(Now(), Begin(request));
      DropRequestId(request.id);
      pending := pending[request.id := Waiting(request, None)];
      order := order + [request.id];
    }

    /** `respond`: true when the response was recorded, which only the first one is. */
    method Respond(d: Decision) returns (recorded: bool)
      modifies this`order, this`pending, this`approved
      ensures recorded == Records(old(Now()), d) && Now() == Approvals.Respond(old(Now()), d)
    {
      if d.request !in pending || pending[d.request].response.Some? {
        return false;
      }
      var waiting := pending[d.request];
      pending := pending[d.request := Waiting(waiting.request, Some(d))];
      if d.approved && (d.scope.ForSession? || d.scope.Always?) {
        approved := approved + {(waiting.request.agent, waiting.request.tool)};
      }
      DropRequestId(d.request);
      return true;
    }

    /** `pending_request`: drops ids that left the store from the front of the queue. */
    method PendingRequest() returns (request: Option<Request>)
      modifies this`order
      ensures order == FirstStored(old(order), pending)
      ensures request == if order == [] then None else Some(pending[order[0]].request)
    {
      while order != []
        invariant FirstStored(order, pending) == FirstStored(old(order), pending)
        decreases |order|
      {
        if order[0] in pending {
          return Some(pending[order[0]].request);
        }
        order := order[1..];
      }
      return None;
    }

    /** The end of `wait_for_response`: what was recorded, and the request is gone. */
    method FinishWait(id: string) returns (response: Option<Decision>)
      requires Valid()
      modifies this`order, this`pending
      ensures Valid() && Now() == Perform(old(Now()), EndWait(id))
      ensures response.Some? ==> exists p :: IsPublished(bus.messages, id, p) && p.decision == response.value
    {
      PerformKeepsInv(Now(), EndWait(id));
      response := None;
      if id in pending {
        assert ResponseInv(Now(), id);
        response := pending[id].response;
      }
      DropRequestId(id);
      pending := pending - {id};
    }

    // ---------- Decisions ----------

    /** `ApprovalDecisionConsumer.consume`: one pass over the batch. */
    method ConsumeBus(limit: Option<nat>) returns (next: nat, applied: seq<string>, deferred: nat)
      requires cursor <= |bus.messages|
      modifies this`order, this`pending, this`approved
      ensures var t := ConsumeAll(Tally(old(Now()), cursor, [], 0),
                                  Limited(DecisionsAfter(bus.messages, cursor), limit));
        Now() == t.state && next == t.cursor && applied == t.applied && deferred == t.deferred
    {
      hide ConsumeOne, DecisionsAfter;
      var positions := bus.ConsumeAfter(cursor, limit);
      ghost var start := Tally(Now(), cursor, [], 0);
      next, applied, deferred := cursor, [], 0;
      for i := 0 to |positions|
        invariant bus.messages == start.state.bus && Consumable(bus.messages, positions)
        invariant Tally(Now(), next, applied, deferred) == ConsumeAll(start, positions[..i])
      {
        assert positions[..i + 1][..i] == positions[..i];
        next, applied, deferred := ConsumeMessage(positions[i], next, applied, deferred);
      }
      assert positions[..|positions|] == positions;
    }

    method ConsumeMessage(position: nat, cursorBefore: nat, appliedBefore: seq<string>, deferredBefore: nat)
        returns (next: nat, applied: seq<string>, deferred: nat)
      requires position < |bus.messages| && bus.messages[position].DecisionMessage?
      modifies this`order, this`pending, this`approved
      ensures Tally(Now(), next, applied, deferred)
           == ConsumeOne(Tally(old(Now()), cursorBefore, appliedBefore, deferredBefore), position)
    {
      next, applied, deferred := position + 1, appliedBefore, deferredBefore;
      var message := bus.messages[position];
      if message.decision.Some? {
        var d := message.decision.value;
        if d.request !in pending {
          deferred := deferred + 1;
        } else {
          var recorded := Respond(d);
          if recorded {
            applied := applied + [d.request];
          }
        }
      }
    }

    /** `consume_for_session`. */
    method ConsumeForSession(limit: Option<nat>) returns (applied: seq<string>)
      requires Valid()
      modifies this
      ensures Valid() && Now() == Perform(old(Now()), ConsumeBatch(limit)) && script == old(script)
      ensures old(cursor) <= cursor
      ensures var t := ConsumeAll(Tally(old(Now()), old(cursor), [], 0),
                                  Limited(DecisionsAfter(bus.messages, old(cursor)), limit));
        applied == t.applied && pending == t.state.pending
    {
      hide ConsumeAll, DecisionsAfter, Limited, Inv;
      PerformKeepsInv(Now(), ConsumeBatch(limit));
      CursorOnBus(Now());
      var next, deferred;
      next, applied, deferred := ConsumeBus(limit);
      if applied != [] || deferred == 0 {
        cursor := next;
      }
    }

    /** `published_decision`: the decision message of a request, read from the start of the bus. */
    method PublishedDecision(request: string) returns (r: Option<Published>)
      requires Valid()
      ensures r.Some? ==> IsPublished(bus.messages, request, r.value)
      ensures r.None? ==> forall p :: !IsPublished(bus.messages, request, p)
    {
      var positions := bus.ConsumeAfter(0, None);
      for i := 0 to |positions|
        invariant forall j :: 0 <= j < i ==> bus.messages[positions[j]].id != DecisionId(request)
      {
        var message := bus.messages[positions[i]];
        if message.id == DecisionId(request) {
          return Some(Published(positions[i] + 1, message.decision.value));
        }
      }
      forall p ensures !IsPublished(bus.messages, request, p) {
        if IsPublished(bus.messages, request, p) {
          DecisionSelected(bus.messages, 0, p.sequence - 1);
        }
      }
      return None;
    }

    /** `apply_published_decision`. */
    method ApplyPublishedDecision(request: string, p: Published) returns (r: Option<Decision>)
      requires Valid() && IsPublished(bus.messages, request, p)
      modifies this
      ensures Valid() && Now() == Perform(old(Now()), ApplyRead(request, p)) && script == old(script)
      ensures r == Applied(old(Now()), request, p) && old(cursor) <= cursor
    {
      PerformKeepsInv(Now(), ApplyRead(request, p));
      var consumed := p.sequence <= cursor;
      var recorded := false;
      if request in pending {
        recorded := Respond(p.decision);
        if recorded && !consumed {
          cursor := Max(cursor, p.sequence);
        }
      }
      return if !recorded && !consumed then None else Some(p.decision);
    }

    // ---------- Other tasks ----------

    method Do(act: Act)
      requires Valid()
      modifies this, bus
      ensures Valid() && Now() == Perform(old(Now()), act) && script == old(script)
      ensures old(cursor) <= cursor && old(bus.messages) <= bus.messages
    {
      PerformKeepsInv(Now(), act);
      match act {
        case Begin(request) => AddRequest(request);
        case Publish(d) => var _ := bus.Publish(DecisionMessage(DecisionId(d.request), Some(d)));
        case PublishOther(m) =>
          if Foreign(m) {
            var _ := bus.Publish(m);
          }
        case ConsumeBatch(limit) => var _ := ConsumeForSession(limit);
        case ApplyRead(request, p) =>
          if IsPublished(bus.messages, request, p) {
            var _ := ApplyPublishedDecision(request, p);
          }
        case EndWait(id) => var _ := FinishWait(id);
      }
    }

    /** An await: other tasks perform their next acts. */
    method Await()
      requires Valid()
      modifies this, bus
      ensures Valid()
      ensures old(Now()).cursor <= cursor && old(bus.messages) <= bus.messages
      ensures old(script) == [] ==> script == [] && Now() == old(Now())
      ensures forall id :: Keeps(old(script), id) ==> Keeps(script, id)
      ensures forall id :: Keeps(old(script), id) && id in old(pending) ==> id in pending
    {
      if script != [] {
        var acts := script[0];
        script := script[1..];
        for i := 0 to |acts|
          invariant Valid() && script == old(script)[1..]
          invariant old(Now()).cursor <= cursor && old(bus.messages) <= bus.messages
          invariant forall id :: Keeps(old(script), id) && id in old(pending) ==> id in pending
        {
          PerformKeepsInv(Now(), acts[i]);
          forall id | Keeps(old(script), id) && id in pending ensures id in Perform(Now(), acts[i]).pending {
            assert acts == old(script)[0];
            PendingStays(Now(), acts[i], id);
          }
          Do(acts[i]);
        }
      }
    }

    // ---------- Services ----------

    /** `begin_request`. */
    method BeginRequest(request: Request) returns (r: Option<Decision>)
      requires Valid()
      modifies this, bus
      ensures Valid() && old(cursor) <= cursor && old(bus.messages) <= bus.messages
      ensures r.Some? ==> exists p :: IsPublished(bus.messages, request.id, p) && p.decision == r.value
      ensures forall p :: IsPublished(old(bus.messages), request.id, p) && Keeps(old(script), request.id)
                ==> r == Some(p.decision)
    {
      hide Perform, Approvals.Respond, QueueInv, BusInv;
      AddRequest(request);
      Await();
      ghost var keeps := Keeps(script, request.id);
      var published := PublishedDecision(request.id);
      forall q | IsPublished(old(bus.messages), request.id, q) ensures IsPublished(bus.messages, request.id, q) {
      }
      if published.None? {
        return None;
      }
      Await();
      ghost var p := published.value;
      assert IsPublished(bus.messages, request.id, p);
      if keeps && Keeps(old(script), request.id) {
        assert ResponseInv(Now(), request.id);
        DeliveredWhilePending(Now(), request.id, p);
      }
      r := ApplyPublishedDecision(request.id, published.value);
      assert IsPublished(bus.messages, request.id, p);
      forall q | IsPublished(old(bus.messages), request.id, q) ensures q == p {
        OnePublished(bus.messages, request.id, p, q);
      }
    }

    /**
     `submit`. Whatever other tasks do, the decision returned is the published one, which is the
     first; left alone, a first decision for a waiting request is published, recorded and returned.
     */
    method Submit(d: Decision) returns (r: Option<Decision>)
      requires Valid()
      modifies this, bus
      ensures Valid() && old(cursor) <= cursor && old(bus.messages) <= bus.messages
      ensures r.Some? ==> exists p :: IsPublished(bus.messages, d.request, p) && p.decision == r.value
      ensures forall p :: IsPublished(old(bus.messages), d.request, p) && r.Some? ==> r == Some(p.decision)
      ensures old(script) == [] && Records(old(Now()), d) && (forall p :: !IsPublished(old(bus.messages), d.request, p))
          ==> r == Some(d) && d.request in pending && pending[d.request].response == Some(d)
      ensures old(script) == [] && d.request !in old(pending)
              && (forall p :: !IsPublished(old(bus.messages), d.request, p))
          ==> r == None && bus.messages == old(bus.messages)
    {
      hide Perform, Approvals.Respond, QueueInv, BusInv, ResponseInv, ConsumeAll;
      Await();
      var published := PublishedDecision(d.request);
      if published.Some? {
        r := ApplyPublishedDecision(d.request, published.value);
        forall q | IsPublished(old(bus.messages), d.request, q) ensures q == published.value {
          OnePublished(bus.messages, d.request, published.value, q);
        }
        return r;
      }
      if d.request !in pending {
        return None;
      }
      Await();
      ghost var before := Now();
      if old(script) == [] && Records(before, d) {
        OwnDecisionApplies(before, d);
      }
      Do(Publish(d));
      published := PublishedDecision(d.request);
      if published.None? {
        return None;
      }
      ghost var p := published.value;
      Await();
      var applied := ConsumeForSession(None);
      if old(script) == [] && Records(before, d) {
        OnePublished(bus.messages, d.request, p, Published(|bus.messages|, d));
      }
      forall q | IsPublished(old(bus.messages), d.request, q) ensures q == p {
        OnePublished(bus.messages, d.request, p, q);
      }
      assert IsPublished(bus.messages, d.request, p);
      if d.request in applied {
        return Some(published.value.decision);
      }
      return None;
    }
  }

  function FirstStored(order: seq<string>, pending: map<string, Waiting>): (rest: seq<string>)
    ensures rest != [] ==> rest[0] in pending
  {
    if order == [] || order[0] in pending then order else FirstStored(order[1..], pending)
  }

  /**
   In a sound session the queue needs no clean-up: `pending_request` is none exactly when every
   request has its response, and otherwise it waits for its own.
   */
  lemma {:induction false} PendingRequestWaits(s: State)
    requires Inv(s)
    ensures FirstStored(s.order, s.pending) == s.order
    ensures s.order == [] <==> forall id :: id in s.pending ==> s.pending[id].response.Some?
    ensures s.order != [] ==>
      && s.order[0] in s.pending && s.pending[s.order[0]].response.None?
      && s.pending[s.order[0]].request.id == s.order[0]
  {
    if s.order != [] {
      assert s.order[0] in s.order;
      assert ResponseInv(s, s.order[0]);
    }
    forall id | id in s.pending && s.pending[id].response.None? ensures s.order != [] {
      assert id in s.order;
    }
  }

  // ---------- Lemmas of the services ----------

  function Max(a: nat, b: nat): nat {
    if a < b then b else a
  }

  /** Other tasks do not end the wait for this request. */
  ghost predicate Keeps(script: seq<seq<Act>>, id: string) {
    forall i, j :: 0 <= i < |script| && 0 <= j < |script[i]| ==> script[i][j] != EndWait(id)
  }

  lemma {:induction false} ConsumeAllKeepsPending(t: Tally, positions: seq<nat>)
    requires Consumable(t.state.bus, positions)
    ensures ConsumeAll(t, positions).state.pending.Keys == t.state.pending.Keys
    decreases |positions|
  {
    if positions != [] {
      ConsumeAllKeepsPending(t, positions[..|positions| - 1]);
    }
  }

  lemma {:induction false} PendingStays(s: State, act: Act, id: string)
    requires id in s.pending && act != EndWait(id)
    ensures id in Perform(s, act).pending
  {
    if act.ConsumeBatch? && s.cursor <= |s.bus| {
      ConsumeAllKeepsPending(Tally(s, s.cursor, [], 0), Limited(DecisionsAfter(s.bus, s.cursor), act.limit));
    }
  }

  lemma {:induction false} DecisionSelected(bus: seq<BusMessage>, from: nat, k: nat)
    requires from <= k < |bus| && bus[k].DecisionMessage?
    ensures k in DecisionsAfter(bus, from)
    decreases k - from
  {
    if from < k {
      DecisionSelected(bus, from + 1, k);
    }
  }

  lemma {:induction false} OnePublished(bus: seq<BusMessage>, request: string, p: Published, q: Published)
    requires BusInv(bus) && IsPublished(bus, request, p)
    requires exists before :: before <= bus && IsPublished(before, request, q)
    ensures p == q
  {
    var a, b := bus[p.sequence - 1], bus[q.sequence - 1];
    assert a.id == b.id;
  }

  predicate ForOthers(bus: seq<BusMessage>, position: nat, id: string)
    requires position < |bus| && bus[position].DecisionMessage?
  {
    bus[position].decision.Some? ==> bus[position].decision.value.request != id
  }

  /** Decisions for other requests leave this one waiting. */
  lemma {:induction false} OthersLeaveWaiting(t: Tally, positions: seq<nat>, id: string)
    requires Consumable(t.state.bus, positions) && id in t.state.pending
    requires forall i :: 0 <= i < |positions| ==> ForOthers(t.state.bus, positions[i], id)
    ensures var u := ConsumeAll(t, positions); id in u.state.pending && u.state.pending[id] == t.state.pending[id]
    decreases |positions|
  {
    if positions != [] {
      OthersLeaveWaiting(t, positions[..|positions| - 1], id);
    }
  }

  lemma {:induction false} LastSelected(bus: seq<BusMessage>, from: nat)
    requires from < |bus| && bus[|bus| - 1].DecisionMessage?
    ensures var positions := DecisionsAfter(bus, from); positions != [] && positions[|positions| - 1] == |bus| - 1
    decreases |bus| - from
  {
    if from < |bus| - 1 {
      LastSelected(bus, from + 1);
    }
  }

  lemma {:induction false} NotPublishedYet(s: State, request: string)
    requires Inv(s) && forall p :: !IsPublished(s.bus, request, p)
    ensures !OnBus(s.bus, DecisionId(request))
  {
    forall k | 0 <= k < |s.bus| ensures s.bus[k].id != DecisionId(request) {
      if s.bus[k].id == DecisionId(request) {
        assert IsPublished(s.bus, request, Published(k + 1, s.bus[k].decision.value));
      }
    }
  }

  /** Publishing the first decision of a waiting request and consuming records that decision. */
  lemma {:induction false} OwnDecisionApplies(s: State, d: Decision)
    requires Inv(s) && Records(s, d) && forall p :: !IsPublished(s.bus, d.request, p)
    ensures var sent := Perform(s, Publish(d));
      && IsPublished(sent.bus, d.request, Published(|sent.bus|, d))
      && sent.cursor <= |sent.bus|
      && (var t := ConsumeAll(Tally(sent, sent.cursor, [], 0), Limited(DecisionsAfter(sent.bus, sent.cursor), None));
          && d.request in t.applied
          && d.request in t.state.pending && t.state.pending[d.request].response == Some(d))
  {
    NotPublishedYet(s, d.request);
    CursorOnBus(s);
    hide Inv;
    var sent := Perform(s, Publish(d));
    var positions := DecisionsAfter(sent.bus, sent.cursor);
    LastSelected(sent.bus, sent.cursor);
    var last := |positions| - 1;
    forall i | 0 <= i < last ensures ForOthers(sent.bus, positions[..last][i], d.request) {
      assert positions[i] < positions[last];
      assert sent.bus[positions[i]] == s.bus[positions[i]];
    }
    OthersLeaveWaiting(Tally(sent, sent.cursor, [], 0), positions[..last], d.request);
  }

  /** For a request that still waits, a published decision is delivered, even behind the cursor. */
  lemma {:induction false} DeliveredWhilePending(s: State, request: string, p: Published)
    requires Inv(s) && request in s.pending && IsPublished(s.bus, request, p)
    ensures Applied(s, request, p) == Some(p.decision)
  {
    assert ResponseInv(s, request);
    if s.pending[request].response.Some? {
      var q :| && IsPublished(s.bus, request, q) && q.decision == s.pending[request].response.value
               && q.sequence <= s.cursor;
      OnePublished(s.bus, request, p, q);
    }
  }
}
