/**
 Whether a published decision reaches the request that waits for it (`coding_agent/approval`): a
 consumption reads only what lies after the session's cursor, and so misses what was skipped.
 */
module ApprovalDelivery {
  import opened Wrappers
  import opened Approvals
  import ApprovalSessions

  predicate Waits(s: State, id: string) {
    id in s.pending && s.pending[id].response.None?
  }

  /** The decision of a request that still waits lies after the cursor. */
  ghost predicate NoneSkipped(s: State) {
    forall id, p :: Waits(s, id) && IsPublished(s.bus, id, p) ==> s.cursor < p.sequence
  }

  // ---------- What a consumption does for one request ----------

  lemma {:induction false} OnlyOwnPosition(bus: seq<BusMessage>, id: string, p: Published, position: nat)
    requires BusInv(bus) && IsPublished(bus, id, p)
    requires position < |bus| && bus[position].DecisionMessage? && position != p.sequence - 1
    ensures ApprovalSessions.ForOthers(bus, position, id)
  {
    assert bus[position].id != bus[p.sequence - 1].id;
  }

  lemma {:induction false} BatchAnswers(t: Tally, positions: seq<nat>, id: string, p: Published)
    requires BusInv(t.state.bus) && Consumable(t.state.bus, positions)
    requires Waits(t.state, id) && IsPublished(t.state.bus, id, p) && p.sequence - 1 in positions
    ensures var u := ConsumeAll(t, positions).state; id in u.pending && u.pending[id].response == Some(p.decision)
    decreases |positions|
  {
    var front, last := positions[..|positions| - 1], positions[|positions| - 1];
    assert positions == front + [last];
    if p.sequence - 1 in front {
      BatchAnswers(t, front, id, p);
    } else {
      forall i | 0 <= i < |front| ensures ApprovalSessions.ForOthers(t.state.bus, front[i], id) {
        assert front[i] in front;
        OnlyOwnPosition(t.state.bus, id, p, front[i]);
      }
      ApprovalSessions.OthersLeaveWaiting(t, front, id);
    }
  }

  /** A consumption never makes a request wait. */
  lemma {:induction false} BatchWakes(t: Tally, positions: seq<nat>, id: string)
    requires Consumable(t.state.bus, positions) && Waits(ConsumeAll(t, positions).state, id)
    ensures Waits(t.state, id)
    decreases |positions|
  {
    if positions != [] {
      BatchWakes(t, positions[..|positions| - 1], id);
    }
  }

  lemma {:induction false} SelectedUpTo(bus: seq<BusMessage>, from: nat, limit: Option<nat>, k: nat)
    requires from <= k < |bus| && bus[k].DecisionMessage?
    requires var positions := Limited(DecisionsAfter(bus, from), limit);
             limit.None? || (positions != [] && k <= positions[|positions| - 1])
    ensures k in Limited(DecisionsAfter(bus, from), limit)
  {
    ApprovalSessions.DecisionSelected(bus, from, k);
    var all := DecisionsAfter(bus, from);
    var i :| 0 <= i < |all| && all[i] == k;
  }

  /** The decision of a waiting request after the cursor is recorded by the next unlimited consumption. */
  lemma {:induction false} NextConsumptionDelivers(s: State, id: string, p: Published)
    requires Inv(s) && Waits(s, id) && IsPublished(s.bus, id, p) && s.cursor < p.sequence
    ensures id in Consume(s, None).pending && Consume(s, None).pending[id].response == Some(p.decision)
  {
    hide ConsumeAll;
    SelectedUpTo(s.bus, s.cursor, None, p.sequence - 1);
    BatchAnswers(Tally(s, s.cursor, [], 0), DecisionsAfter(s.bus, s.cursor), id, p);
  }

  /** A decision that was skipped is not consumed: its request waits on. */
  lemma {:induction false} SkippedIsNotConsumed(s: State, id: string, p: Published, limit: Option<nat>)
    requires Inv(s) && Waits(s, id) && IsPublished(s.bus, id, p) && p.sequence <= s.cursor
    ensures Waits(Consume(s, limit), id) && s.cursor <= Consume(s, limit).cursor && Consume(s, limit).bus == s.bus
  {
    ConsumeKeepsInv(s, limit);
    hide ConsumeAll;
    var positions := Limited(DecisionsAfter(s.bus, s.cursor), limit);
    forall i | 0 <= i < |positions| ensures ApprovalSessions.ForOthers(s.bus, positions[i], id) {
      OnlyOwnPosition(s.bus, id, p, positions[i]);
    }
    ApprovalSessions.OthersLeaveWaiting(Tally(s, s.cursor, [], 0), positions, id);
  }

  // ---------- Which acts skip a decision ----------

  /** Another request waits for a decision between the cursor and this place. */
  ghost predicate WaitsBefore(s: State, request: string, sequence: nat) {
    exists id, q :: id != request && Waits(s, id) && IsPublished(s.bus, id, q) && s.cursor < q.sequence < sequence
  }

  /**
   A request begins with its decision behind the cursor already, or the decision of a request is
   applied directly and takes the cursor past that of another one.
   */
  ghost predicate Skips(s: State, act: Act) {
    match act
    case Begin(request) => exists p :: IsPublished(s.bus, request.id, p) && p.sequence <= s.cursor
    case ApplyRead(request, p) =>
      && IsPublished(s.bus, request, p) && Records(s, p.decision)
      && WaitsBefore(s, request, p.sequence)
    case _ => false
  }

  function BatchOf(s: State, limit: Option<nat>): seq<nat>
    requires s.cursor <= |s.bus|
  {
    Limited(DecisionsAfter(s.bus, s.cursor), limit)
  }

  lemma {:induction false} ConsumptionIsBatch(s: State, limit: Option<nat>)
    requires Inv(s)
    ensures var positions := BatchOf(s, limit);
      && Consumable(s.bus, positions)
      && Consume(s, limit).pending == ConsumeAll(Tally(s, s.cursor, [], 0), positions).state.pending
      && (Consume(s, limit).cursor == s.cursor
          || (positions != [] && Consume(s, limit).cursor == positions[|positions| - 1] + 1))
  {
    BusIsSound(s);
    ConsumeAllKeepsInv(s, BatchOf(s, limit));
    hide ConsumeAll, DecisionsAfter, Inv;
  }

  /** A consumption that passes the decision of a waiting request answers it. */
  lemma {:induction false} PassedIsAnswered(s: State, limit: Option<nat>, id: string, p: Published)
    requires Inv(s) && Waits(s, id) && IsPublished(s.bus, id, p)
    requires s.cursor < p.sequence <= Consume(s, limit).cursor
    ensures !Waits(Consume(s, limit), id)
  {
    BusIsSound(s);
    ConsumptionIsBatch(s, limit);
    hide Consume, ConsumeAll, Inv, BusInv;
    SelectedUpTo(s.bus, s.cursor, limit, p.sequence - 1);
    BatchAnswers(Tally(s, s.cursor, [], 0), BatchOf(s, limit), id, p);
  }

  lemma {:induction false} ConsumptionWakes(s: State, limit: Option<nat>, id: string)
    requires s.cursor <= |s.bus| && Waits(Consume(s, limit), id)
    ensures Waits(s, id)
  {
    BatchWakes(Tally(s, s.cursor, [], 0), Limited(DecisionsAfter(s.bus, s.cursor), limit), id);
  }

  lemma {:induction false} ConsumptionSkipsNone(s: State, limit: Option<nat>)
    requires Inv(s) && NoneSkipped(s)
    ensures NoneSkipped(Consume(s, limit))
  {
    BusIsSound(s);
    ConsumeKeepsInv(s, limit);
    hide Consume, Inv;
    var next := Consume(s, limit);
    forall id, p | Waits(next, id) && IsPublished(next.bus, id, p) ensures next.cursor < p.sequence {
      ConsumptionWakes(s, limit, id);
      if p.sequence <= next.cursor {
        PassedIsAnswered(s, limit, id, p);
      }
    }
  }

  lemma {:induction false} BusIsSound(s: State)
    requires Inv(s)
    ensures BusInv(s.bus) && s.cursor <= |s.bus|
  {
  }

  lemma {:induction false} PublishingSkipsNone(s: State, m: BusMessage)
    requires s.cursor <= |s.bus| && NoneSkipped(s)
    ensures NoneSkipped(s.(bus := s.bus + [m]))
  {
    var next := s.(bus := s.bus + [m]);
    forall id, p | Waits(next, id) && IsPublished(next.bus, id, p) ensures next.cursor < p.sequence {
      if p.sequence <= |s.bus| {
        assert IsPublished(s.bus, id, p);
      }
    }
  }

  lemma {:induction false} BeginSkipsExactly(s: State, request: Request)
    requires NoneSkipped(s)
    ensures NoneSkipped(AddRequest(s, request)) <==> !Skips(s, Begin(request))
  {
    var next := AddRequest(s, request);
    assert Waits(next, request.id);
    if !Skips(s, Begin(request)) {
      forall id, p | Waits(next, id) && IsPublished(next.bus, id, p) ensures next.cursor < p.sequence {
        assert id != request.id ==> Waits(s, id);
      }
    }
  }

  lemma {:induction false} ApplySkipsExactly(s: State, request: string, p: Published)
    requires Inv(s) && NoneSkipped(s) && IsPublished(s.bus, request, p)
    ensures NoneSkipped(Apply(s, request, p)) <==> !Skips(s, ApplyRead(request, p))
  {
    hide Inv;
    BusIsSound(s);
    var next := Apply(s, request, p);
    assert p.decision.request == request;
    if Records(s, p.decision) {
      assert Waits(s, request);
      assert next.cursor == p.sequence && next.bus == s.bus;
      assert forall id :: Waits(next, id) <==> Waits(s, id) && id != request;
      if WaitsBefore(s, request, p.sequence) {
        var id, q :| id != request && Waits(s, id) && IsPublished(s.bus, id, q) && s.cursor < q.sequence < p.sequence;
        assert Waits(next, id) && IsPublished(next.bus, id, q);
      } else {
        forall id, q | Waits(next, id) && IsPublished(next.bus, id, q) ensures next.cursor < q.sequence {
          assert Waits(s, id) && s.cursor < q.sequence;
          assert q.sequence != p.sequence;
        }
      }
    } else {
      assert next == s;
    }
  }

  /** An act leaves some decision of a waiting request behind the cursor exactly when it skips one. */
  lemma {:induction false} ActSkipsExactly(s: State, act: Act)
    requires Inv(s) && NoneSkipped(s)
    ensures NoneSkipped(Perform(s, act)) <==> !Skips(s, act)
  {
    BusIsSound(s);
    match act {
      case Begin(request) => BeginSkipsExactly(s, request);
      case Publish(d) => PublishingSkipsNone(s, DecisionMessage(DecisionId(d.request), Some(d)));
      case PublishOther(m) => PublishingSkipsNone(s, m);
      case ConsumeBatch(limit) => ConsumptionSkipsNone(s, limit);
      case ApplyRead(request, p) =>
        if IsPublished(s.bus, request, p) {
          ApplySkipsExactly(s, request, p);
        }
      case EndWait(request) =>
        var next := Release(s, request);
        assert forall id :: Waits(next, id) ==> Waits(s, id);
    }
  }

  // ---------- Runs ----------

  ghost predicate NeverSkipped(s: State, acts: seq<Act>) {
    forall i :: 0 <= i <= |acts| ==> NoneSkipped(Runs(s, acts[..i]))
  }

  ghost predicate SkipsNowhere(s: State, acts: seq<Act>) {
    forall i :: 0 <= i < |acts| ==> !Skips(Runs(s, acts[..i]), acts[i])
  }

  lemma {:induction false} NeverSkippedUnfolds(s: State, acts: seq<Act>)
    requires acts != []
    ensures NeverSkipped(s, acts) <==> NeverSkipped(s, acts[..|acts| - 1]) && NoneSkipped(Runs(s, acts))
  {
    hide NoneSkipped, Runs;
    var n, front := |acts| - 1, acts[..|acts| - 1];
    assert acts[..n + 1] == acts;
    assert forall i :: 0 <= i <= n ==> front[..i] == acts[..i];
    if NeverSkipped(s, acts) {
      assert NoneSkipped(Runs(s, acts[..n + 1]));
      forall i | 0 <= i <= n ensures NoneSkipped(Runs(s, front[..i])) {
        assert NoneSkipped(Runs(s, acts[..i]));
      }
    } else if NeverSkipped(s, front) {
      forall i | 0 <= i <= n ensures NoneSkipped(Runs(s, acts[..i])) {
        assert NoneSkipped(Runs(s, front[..i]));
      }
    }
  }

  lemma {:induction false} SkipsNowhereUnfolds(s: State, acts: seq<Act>)
    requires acts != []
    ensures var n := |acts| - 1;
            SkipsNowhere(s, acts) <==> SkipsNowhere(s, acts[..n]) && !Skips(Runs(s, acts[..n]), acts[n])
  {
    hide Skips, Runs;
    var n, front := |acts| - 1, acts[..|acts| - 1];
    assert forall i :: 0 <= i <= n ==> front[..i] == acts[..i];
    if SkipsNowhere(s, acts) {
      forall i | 0 <= i < n ensures !Skips(Runs(s, front[..i]), front[i]) {
        assert !Skips(Runs(s, acts[..i]), acts[i]);
      }
    } else if SkipsNowhere(s, front) {
      forall i | 0 <= i < n ensures !Skips(Runs(s, acts[..i]), acts[i]) {
        assert !Skips(Runs(s, front[..i]), front[i]);
      }
    }
  }

  /**
   Over every interleaving, the decision of every waiting request lies after the cursor all along,
   so that the next unlimited consumption delivers it, exactly when no act skips one.
   */
  lemma {:induction false} NeverSkippedExactly(s: State, acts: seq<Act>)
    requires Inv(s) && NoneSkipped(s)
    ensures NeverSkipped(s, acts) <==> SkipsNowhere(s, acts)
    decreases |acts|
  {
    hide NoneSkipped, Skips, Inv, Perform;
    if acts == [] {
      assert acts[..0] == acts;
    } else {
      var n := |acts| - 1;
      NeverSkippedUnfolds(s, acts);
      SkipsNowhereUnfolds(s, acts);
      NeverSkippedExactly(s, acts[..n]);
      if NeverSkipped(s, acts[..n]) {
        assert acts[..n][..n] == acts[..n];
        assert NoneSkipped(Runs(s, acts[..n][..n]));
        RunsKeepInv(s, acts[..n]);
        ActSkipsExactly(Runs(s, acts[..n]), acts[n]);
      }
    }
  }

  /** Nobody applies the decision of this request directly, begins it again, or ends its wait. */
  predicate LeavesAlone(acts: seq<Act>, id: string) {
    forall i :: 0 <= i < |acts| ==>
      match acts[i]
      case Begin(request) => request.id != id
      case ApplyRead(request, _) => request != id
      case EndWait(request) => request != id
      case _ => true
  }

  lemma {:induction false} SkippedWaitsOn(s: State, act: Act, id: string, p: Published)
    requires Inv(s) && Waits(s, id) && IsPublished(s.bus, id, p) && p.sequence <= s.cursor
    requires LeavesAlone([act], id)
    ensures var next := Perform(s, act);
            Waits(next, id) && IsPublished(next.bus, id, p) && p.sequence <= next.cursor
  {
    hide Runs, Inv;
    PerformKeepsInv(s, act);
    BusIsSound(s);
    assert [act][0] == act;
    if act.ConsumeBatch? {
      SkippedIsNotConsumed(s, id, p, act.limit);
    }
  }

  /** A decision that was skipped is never delivered by the bus: whatever else happens, its request waits. */
  lemma {:induction false} SkippedWaitsForever(s: State, acts: seq<Act>, id: string, p: Published)
    requires Inv(s) && Waits(s, id) && IsPublished(s.bus, id, p) && p.sequence <= s.cursor
    requires LeavesAlone(acts, id)
    ensures Waits(Runs(s, acts), id) && IsPublished(Runs(s, acts).bus, id, p) && p.sequence <= Runs(s, acts).cursor
    decreases |acts|
  {
    hide Perform, Inv, IsPublished;
    if acts != [] {
      var n := |acts| - 1;
      SkippedWaitsForever(s, acts[..n], id, p);
      RunsKeepInv(s, acts[..n]);
      assert [acts[n]][0] == acts[n];
      SkippedWaitsOn(Runs(s, acts[..n]), acts[n], id, p);
    }
  }

  /** Two requests wait for decisions that were published in this order; the later one is applied directly. */
  lemma {:induction false} DirectApplicationSkips(s: State, first: string, second: string, p: Published, q: Published)
    requires Inv(s) && first != second && Waits(s, first) && Waits(s, second)
    requires IsPublished(s.bus, first, p) && IsPublished(s.bus, second, q) && p.sequence < q.sequence
    ensures var next := Perform(s, ApplyRead(second, q));
      && Inv(next) && Waits(next, first) && IsPublished(next.bus, first, p) && p.sequence <= next.cursor
      && second in next.pending && next.pending[second].response == Some(q.decision)
  {
    PerformKeepsInv(s, ApplyRead(second, q));
    BusIsSound(s);
    assert q.decision.request == second;
  }
}
