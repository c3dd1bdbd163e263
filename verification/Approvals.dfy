/**
 Approval requests and the decisions published for them on a sequenced message bus
 (`coding_agent/approval`, `agentkit/runtime/messages.py`). The functions are the atomic steps of
 one session; `ApprovalSessions` holds the code that updates the session.
 */
module Approvals {
  import opened Wrappers

  datatype Scope = Once | ForSession | Always

  datatype Decision = Decision(request: string, approved: bool, feedback: Option<string>, scope: Scope)

  /** The id of a decision message is built from the session and the request. */
  datatype MessageId = DecisionId(request: string) | OtherId(n: nat)

  /** `DecisionMessage(_, None)`: a decision message whose payload is not a decision of this session. */
  datatype BusMessage = DecisionMessage(id: MessageId, decision: Option<Decision>) | OtherMessage(id: MessageId)

  datatype Request = Request(id: string, agent: string, tool: string)

  datatype Waiting = Waiting(request: Request, response: Option<Decision>)

  datatype State = State(
    bus: seq<BusMessage>, cursor: nat,
    pending: map<string, Waiting>, order: seq<string>, approved: set<(string, string)>)

  // ---------- Store and coordinator ----------

  function Dropped(order: seq<string>, id: string): seq<string> {
    if order == [] then []
    else (if order[0] == id then [] else [order[0]]) + Dropped(order[1..], id)
  }

  function AddRequest(s: State, request: Request): State {
    s.(pending := s.pending[request.id := Waiting(request, None)], order := Dropped(s.order, request.id) + [request.id])
  }

  predicate Records(s: State, d: Decision) {
    d.request in s.pending && s.pending[d.request].response.None?
  }

  /** `ApprovalCoordinator.respond`: the first response is recorded, and a wide approval remembered. */
  function Respond(s: State, d: Decision): State {
    if !Records(s, d) then s
    else
      var waiting := s.pending[d.request];
      s.(pending := s.pending[d.request := Waiting(waiting.request, Some(d))],
         order := Dropped(s.order, d.request),
         approved := if d.approved && !d.scope.Once? then s.approved + {(waiting.request.agent, waiting.request.tool)}
                     else s.approved)
  }

  /** The end of a wait, by response, timeout or cancellation: the request leaves the session. */
  function Release(s: State, id: string): State {
    s.(pending := s.pending - {id}, order := Dropped(s.order, id))
  }

  // ---------- Bus ----------

  predicate OnBus(bus: seq<BusMessage>, id: MessageId) {
    exists k :: 0 <= k < |bus| && bus[k].id == id
  }

  /** Positions, from `from` on, of the decision messages: what `consume_after` selects. */
  function DecisionsAfter(bus: seq<BusMessage>, from: nat): (positions: seq<nat>)
    requires from <= |bus|
    ensures forall i :: 0 <= i < |positions| ==> from <= positions[i] < |bus| && bus[positions[i]].DecisionMessage?
    ensures forall i, j :: 0 <= i < j < |positions| ==> positions[i] < positions[j]
    decreases |bus| - from
  {
    if from == |bus| then []
    else (if bus[from].DecisionMessage? then [from] else []) + DecisionsAfter(bus, from + 1)
  }

  function Limited(positions: seq<nat>, limit: Option<nat>): seq<nat> {
    if limit.Some? && limit.value < |positions| then positions[..limit.value] else positions
  }

  /** The published decision of a request with its sequence number. */
  datatype Published = Published(sequence: nat, decision: Decision)

  predicate IsPublished(bus: seq<BusMessage>, request: string, p: Published) {
    && 0 < p.sequence <= |bus|
    && bus[p.sequence - 1] == DecisionMessage(DecisionId(request), Some(p.decision))
  }

  // ---------- Consuming ----------

  /** Where a consumption stands: session, cursor, and which requests it applied or deferred. */
  datatype Tally = Tally(state: State, cursor: nat, applied: seq<string>, deferred: nat)

  function ConsumeOne(t: Tally, position: nat): Tally
    requires position < |t.state.bus| && t.state.bus[position].DecisionMessage?
  {
    match t.state.bus[position].decision
    case None => t.(cursor := position + 1)
    case Some(d) =>
      if d.request !in t.state.pending then t.(cursor := position + 1, deferred := t.deferred + 1)
      else if Records(t.state, d) then
        t.(state := Respond(t.state, d), cursor := position + 1, applied := t.applied + [d.request])
      else t.(cursor := position + 1)
  }

  predicate Consumable(bus: seq<BusMessage>, positions: seq<nat>) {
    forall i :: 0 <= i < |positions| ==> positions[i] < |bus| && bus[positions[i]].DecisionMessage?
  }

  function ConsumeAll(t: Tally, positions: seq<nat>): (r: Tally)
    requires Consumable(t.state.bus, positions)
    ensures r.state.bus == t.state.bus
    decreases |positions|
  {
    if positions == [] then t
    else
      var last := |positions| - 1;
      ConsumeOne(ConsumeAll(t, positions[..last]), positions[last])
  }

  /** The cursor advances past the batch, unless the batch only met requests that do not exist yet. */
  function Settle(t: Tally, cursor: nat): State {
    if t.applied != [] || t.deferred == 0 then t.state.(cursor := t.cursor) else t.state.(cursor := cursor)
  }

  /** `consume_for_session` in one step. */
  function Consume(s: State, limit: Option<nat>): State
    requires s.cursor <= |s.bus|
  {
    Settle(ConsumeAll(Tally(s, s.cursor, [], 0), Limited(DecisionsAfter(s.bus, s.cursor), limit)), s.cursor)
  }

  /** The synchronous part of `apply_published_decision`. */
  function Apply(s: State, request: string, p: Published): State {
    var next := if request in s.pending then Respond(s, p.decision) else s;
    var applied := request in s.pending && Records(s, p.decision);
    if applied && s.cursor < p.sequence then next.(cursor := p.sequence) else next
  }

  function Applied(s: State, request: string, p: Published): Option<Decision> {
    if (request in s.pending && Records(s, p.decision)) || p.sequence <= s.cursor then Some(p.decision) else None
  }

  // ---------- Acts of a session ----------

  datatype Act =
    | Begin(request: Request)
    | Publish(decision: Decision)
    | PublishOther(message: BusMessage)
    | ConsumeBatch(limit: Option<nat>)
    | ApplyRead(requestId: string, published: Published)
    | EndWait(requestId: string)

  /** Decisions reach the bus through `submit`; any other message has another id and no decision. */
  predicate Foreign(m: BusMessage) {
    m.id.OtherId? && (m.DecisionMessage? ==> m.decision.None?)
  }

  function Perform(s: State, act: Act): State {
    match act
    case Begin(request) => AddRequest(s, request)
    case Publish(d) =>
      if OnBus(s.bus, DecisionId(d.request)) then s
      else s.(bus := s.bus + [DecisionMessage(DecisionId(d.request), Some(d))])
    case PublishOther(m) => if Foreign(m) && !OnBus(s.bus, m.id) then s.(bus := s.bus + [m]) else s
    case ConsumeBatch(limit) => if s.cursor <= |s.bus| then Consume(s, limit) else s
    case ApplyRead(request, p) => if IsPublished(s.bus, request, p) then Apply(s, request, p) else s
    case EndWait(request) => Release(s, request)
  }

  function Runs(s: State, acts: seq<Act>): State {
    if acts == [] then s else Perform(Runs(s, acts[..|acts| - 1]), acts[|acts| - 1])
  }

  // ---------- What every act keeps ----------

  ghost predicate BusInv(bus: seq<BusMessage>) {
    && (forall i, j :: 0 <= i < j < |bus| ==> bus[i].id != bus[j].id)
    && (forall i :: 0 <= i < |bus| ==>
          Foreign(bus[i]) || (&& bus[i].DecisionMessage? && bus[i].decision.Some?
                              && bus[i].id == DecisionId(bus[i].decision.value.request)))
  }

  /** A recorded response is the published decision, and the cursor is past it. */
  ghost predicate ResponseInv(s: State, id: string)
    requires id in s.pending
  {
    && s.pending[id].request.id == id
    && (s.pending[id].response.Some? ==>
          exists p :: IsPublished(s.bus, id, p) && p.decision == s.pending[id].response.value && p.sequence <= s.cursor)
  }

  predicate Distinct(order: seq<string>) {
    forall i, j :: 0 <= i < j < |order| ==> order[i] != order[j]
  }

  /** The queue holds exactly the requests without a response, each once. */
  ghost predicate QueueInv(s: State) {
    && Distinct(s.order)
    && forall id :: id in s.order <==> id in s.pending && s.pending[id].response.None?
  }

  ghost predicate Inv(s: State) {
    && BusInv(s.bus)
    && s.cursor <= |s.bus|
    && QueueInv(s)
    && forall id :: id in s.pending ==> ResponseInv(s, id)
  }

  lemma {:induction false} DroppedMembers(order: seq<string>, id: string)
    ensures forall x :: x in Dropped(order, id) <==> x in order && x != id
    ensures Distinct(order) ==> Distinct(Dropped(order, id))
    ensures |Dropped(order, id)| <= |order|
  {
    if order != [] {
      var rest := Dropped(order[1..], id);
      DroppedMembers(order[1..], id);
      assert order == [order[0]] + order[1..];
      if Distinct(order) {
        assert order[0] !in order[1..];
        assert order[0] !in rest;
      }
    }
  }

  lemma {:induction false} AddKeepsInv(s: State, request: Request)
    requires Inv(s)
    ensures Inv(AddRequest(s, request))
  {
    DroppedMembers(s.order, request.id);
    var next := AddRequest(s, request);
    assert request.id !in Dropped(s.order, request.id);
    assert Distinct(next.order);
    forall id | id in next.pending ensures ResponseInv(next, id) {
      assert id != request.id ==> ResponseInv(s, id);
    }
  }

  lemma {:induction false} ReleaseKeepsInv(s: State, id: string)
    requires Inv(s)
    ensures Inv(Release(s, id))
  {
    DroppedMembers(s.order, id);
    var next := Release(s, id);
    forall x | x in next.pending ensures ResponseInv(next, x) {
      assert ResponseInv(s, x);
    }
  }

  /** Recording a published decision and moving the cursor past it. */
  lemma {:induction false} RecordKeepsInv(s: State, p: Published, cursor: nat)
    requires Inv(s) && IsPublished(s.bus, p.decision.request, p)
    requires p.sequence <= cursor <= |s.bus| && s.cursor <= cursor
    ensures Inv(Respond(s, p.decision).(cursor := cursor))
  {
    var next := Respond(s, p.decision).(cursor := cursor);
    DroppedMembers(s.order, p.decision.request);
    forall id | id in next.pending ensures ResponseInv(next, id) {
      assert ResponseInv(s, id);
      if id == p.decision.request && Records(s, p.decision) {
        assert IsPublished(next.bus, id, p);
      } else if next.pending[id].response.Some? {
        var q :| IsPublished(s.bus, id, q) && q.decision == s.pending[id].response.value && q.sequence <= s.cursor;
        assert IsPublished(next.bus, id, q);
      }
    }
  }

  lemma {:induction false} GrowKeepsInv(s: State, m: BusMessage)
    requires Inv(s) && !OnBus(s.bus, m.id)
    requires Foreign(m) || (m.DecisionMessage? && m.decision.Some? && m.id == DecisionId(m.decision.value.request))
    ensures Inv(s.(bus := s.bus + [m]))
  {
    var next := s.(bus := s.bus + [m]);
    forall i, j | 0 <= i < j < |next.bus| ensures next.bus[i].id != next.bus[j].id {
      assert j < |s.bus| || next.bus[j] == m;
    }
    forall id | id in next.pending ensures ResponseInv(next, id) {
      assert ResponseInv(s, id);
      if next.pending[id].response.Some? {
        var q :| IsPublished(s.bus, id, q) && q.decision == s.pending[id].response.value && q.sequence <= s.cursor;
        assert IsPublished(next.bus, id, q);
      }
    }
  }

  lemma {:induction false} AdvanceKeepsInv(s: State, cursor: nat)
    requires Inv(s) && s.cursor <= cursor <= |s.bus|
    ensures Inv(s.(cursor := cursor))
  {
    var next := s.(cursor := cursor);
    forall id | id in next.pending ensures ResponseInv(next, id) {
      assert ResponseInv(s, id);
      if next.pending[id].response.Some? {
        var q :| IsPublished(s.bus, id, q) && q.decision == s.pending[id].response.value && q.sequence <= s.cursor;
        assert IsPublished(next.bus, id, q);
      }
    }
  }

  /** The decision at a position of the bus is the published decision of its request. */
  lemma {:induction false} PositionIsPublished(bus: seq<BusMessage>, position: nat)
    requires BusInv(bus) && position < |bus| && bus[position].DecisionMessage? && bus[position].decision.Some?
    ensures var d := bus[position].decision.value; IsPublished(bus, d.request, Published(position + 1, d))
  {
  }

  /**
   Halfway through a batch, the session with the batch's cursor is sound; and as long as nothing
   was applied, the session itself is what it was.
   */
  lemma {:induction false} ConsumeAllKeepsInv(s: State, positions: seq<nat>)
    requires Inv(s) && Consumable(s.bus, positions)
    requires forall i :: 0 <= i < |positions| ==> s.cursor <= positions[i]
    requires forall i, j :: 0 <= i < j < |positions| ==> positions[i] < positions[j]
    ensures var t := ConsumeAll(Tally(s, s.cursor, [], 0), positions);
      && Inv(t.state.(cursor := t.cursor))
      && t.cursor == (if positions == [] then s.cursor else positions[|positions| - 1] + 1)
      && (t.applied == [] ==> t.state == s)
      && t.state.cursor == s.cursor
    decreases |positions|
  {
    if positions == [] {
      assert s.(cursor := s.cursor) == s;
    } else {
      var last := |positions| - 1;
      ConsumeAllKeepsInv(s, positions[..last]);
      var t := ConsumeAll(Tally(s, s.cursor, [], 0), positions[..last]);
      OneMoreKeepsInv(t, positions[last]);
    }
  }

  lemma {:induction false} OneMoreKeepsInv(t: Tally, position: nat)
    requires position < |t.state.bus| && t.state.bus[position].DecisionMessage?
    requires Inv(t.state.(cursor := t.cursor)) && t.cursor <= position
    ensures var u := ConsumeOne(t, position);
      && Inv(u.state.(cursor := u.cursor))
      && u.cursor == position + 1
      && u.state.cursor == t.state.cursor && u.state.bus == t.state.bus
      && t.applied <= u.applied && (u.applied == t.applied ==> u.state == t.state)
  {
    var s := t.state.(cursor := t.cursor);
    var u := ConsumeOne(t, position);
    if t.state.bus[position].decision.Some? && Records(t.state, t.state.bus[position].decision.value) {
      var d := t.state.bus[position].decision.value;
      PositionIsPublished(s.bus, position);
      RecordKeepsInv(s, Published(position + 1, d), position + 1);
      assert Respond(s, d).(cursor := position + 1) == u.state.(cursor := u.cursor);
    } else {
      AdvanceKeepsInv(s, position + 1);
      assert s.(cursor := position + 1) == u.state.(cursor := u.cursor);
    }
  }

  lemma {:induction false} CursorOnBus(s: State)
    requires Inv(s)
    ensures s.cursor <= |s.bus|
  {
  }

  lemma {:induction false} ConsumeKeepsInv(s: State, limit: Option<nat>)
    requires Inv(s)
    ensures Inv(Consume(s, limit)) && s.cursor <= Consume(s, limit).cursor && Consume(s, limit).bus == s.bus
  {
    hide Inv, ConsumeAll;
    CursorOnBus(s);
    var positions := Limited(DecisionsAfter(s.bus, s.cursor), limit);
    ConsumeAllKeepsInv(s, positions);
    var t := ConsumeAll(Tally(s, s.cursor, [], 0), positions);
    assert t.state == s ==> t.state.(cursor := s.cursor) == s;
  }

  lemma {:induction false} ApplyKeepsInv(s: State, request: string, p: Published)
    requires Inv(s) && IsPublished(s.bus, request, p)
    ensures Inv(Apply(s, request, p)) && s.cursor <= Apply(s, request, p).cursor && Apply(s, request, p).bus == s.bus
  {
    assert p.decision.request == request;
    if request in s.pending && Records(s, p.decision) {
      var cursor := if s.cursor < p.sequence then p.sequence else s.cursor;
      RecordKeepsInv(s, p, cursor);
      assert Apply(s, request, p) == Respond(s, p.decision).(cursor := cursor);
    }
  }

  lemma {:induction false} PerformKeepsInv(s: State, act: Act)
    requires Inv(s)
    ensures Inv(Perform(s, act))
    ensures s.cursor <= Perform(s, act).cursor && s.bus <= Perform(s, act).bus
  {
    match act {
      case Begin(request) => AddKeepsInv(s, request);
      case Publish(d) =>
        if !OnBus(s.bus, DecisionId(d.request)) {
          GrowKeepsInv(s, DecisionMessage(DecisionId(d.request), Some(d)));
        }
      case PublishOther(m) =>
        if Foreign(m) && !OnBus(s.bus, m.id) {
          GrowKeepsInv(s, m);
        }
      case ConsumeBatch(limit) => ConsumeKeepsInv(s, limit);
      case ApplyRead(request, p) =>
        if IsPublished(s.bus, request, p) {
          ApplyKeepsInv(s, request, p);
        }
      case EndWait(request) => ReleaseKeepsInv(s, request);
    }
  }

  /** Over every interleaving the session stays sound and its cursor never decreases. */
  lemma {:induction false} RunsKeepInv(s: State, acts: seq<Act>)
    requires Inv(s)
    ensures Inv(Runs(s, acts))
    ensures s.cursor <= Runs(s, acts).cursor && s.bus <= Runs(s, acts).bus
  {
    if acts != [] {
      RunsKeepInv(s, acts[..|acts| - 1]);
      PerformKeepsInv(Runs(s, acts[..|acts| - 1]), acts[|acts| - 1]);
    }
  }

  /** A request has at most one published decision, and it stays the published one. */
  lemma {:induction false} FirstDecisionStands(s: State, acts: seq<Act>, request: string, p: Published, q: Published)
    requires Inv(s) && IsPublished(s.bus, request, p)
    requires IsPublished(Runs(s, acts).bus, request, q)
    ensures p == q
  {
    RunsKeepInv(s, acts);
    var end := Runs(s, acts);
    assert IsPublished(end.bus, request, p);
    var a, b := end.bus[p.sequence - 1], end.bus[q.sequence - 1];
    assert a.id == b.id;
  }
}
