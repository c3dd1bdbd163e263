/**
 What a coordinator does, as the world sees it: the control it observes, the requests it sends to the
 store, what it asks the model, and its calls of the executor, in order. `After` says which event may
 follow which in one segment of `agentkit/runtime/coordinator.py`.
 */
module Journal {
  import opened Wrappers
  import opened Contracts
  import opened CommitStore
  import opened Protocol

  // ---------- Events ----------

  datatype Snapshot = Snapshot(generation: nat, raised: bool, reason: string)

  datatype Generation = Generated(result: ModelResult) | Interrupted(reason: string) | AdapterFailed(message: string)

  datatype ExecutionResult =
    | EffectCompleted(result: Json)
    | EffectFailed(code: string, message: string)
    | EffectIndeterminate(code: string, message: string, result: Json)

  datatype ExecutorAnswer = Returned(result: ExecutionResult) | ExecutorCancelled | ExecutorRaised(message: string)

  /** A request to the store with its answer. */
  datatype Sent = Sent(act: Act, result: CommitResult)

  datatype Event =
    | Observed(snapshot: Snapshot)
    | Asked(sent: Sent)
    | Modelled(request: ModelRequest, answer: Generation)
    | Called(authorizationId: Id)
    | Replied(authorizationId: Id, reply: ExecutorAnswer)

  /** The requests to the store among the events. */
  function Requests(journal: seq<Event>): seq<Sent> {
    if journal == [] then []
    else
      var last := journal[|journal| - 1];
      Requests(journal[..|journal| - 1]) + if last.Asked? then [last.sent] else []
  }

  lemma {:induction false} RequestsOneMore(journal: seq<Event>, e: Event)
    ensures Requests(journal + [e]) == Requests(journal) + if e.Asked? then [e.sent] else []
  {
    assert (journal + [e])[..|journal|] == journal;
  }

  lemma {:induction false} RequestsJoin(a: seq<Event>, b: seq<Event>)
    ensures Requests(a + b) == Requests(a) + Requests(b)
    decreases |b|
  {
    if b == [] {
      assert a + b == a && Requests(a) + [] == Requests(a);
    } else {
      var front, last := b[..|b| - 1], b[|b| - 1];
      RequestsJoin(a, front);
      assert a + b == (a + front) + [last] && b == front + [last];
      RequestsOneMore(a + front, last);
      RequestsOneMore(front, last);
    }
  }

  predicate Accepted(result: CommitResult) {
    result.Committed? || result.ExactReplay?
  }

  // ---------- What is known of a dispatched effect ----------

  /** A control raised after the authorization keeps the executor from being called at all. */
  datatype Reading = ControlRaised(reason: string) | Answered(answer: ExecutorAnswer)

  predicate Unknowable(s: EffectSettlement, code: string, message: string, result: Json) {
    && s.outcome == Indeterminate && s.result == result
    && s.reasonCode == Some(code) && s.reasonMessage == Some(message)
  }

  /** The settlement says what was read. */
  predicate Says(s: EffectSettlement, r: Reading) {
    match r
    case ControlRaised(reason) => Unknowable(s, "control_after_dispatch", reason, "{}")
    case Answered(ExecutorCancelled) =>
      Unknowable(s, "effect_executor_cancelled", "effect executor cancelled after dispatch", "{}")
    case Answered(ExecutorRaised(message)) => Unknowable(s, "effect_executor_error", message, "{}")
    case Answered(Returned(EffectCompleted(value))) =>
      s.outcome == OutcomeCompleted && s.result == value && s.reasonCode.None? && s.reasonMessage.None?
    case Answered(Returned(EffectFailed(code, message))) =>
      && s.outcome == OutcomeFailed && s.result == message
      && s.reasonCode == Some(code) && s.reasonMessage == Some(message)
    case Answered(Returned(EffectIndeterminate(code, message, value))) => Unknowable(s, code, message, value)
  }

  // ---------- The order of a segment ----------

  /**
   `Calm`: the last event is an observation, and no control was raised. `Closed`: a settlement was just
   accepted; `Stale`: an authorization was just refused as stale; both call for an observation. `Stopped`
   and `Broken`: nothing more may happen; in `Broken` a dispatch has no settlement.
   */
  datatype Phase =
    | Idle
    | Calm
    | Closed
    | Stale(current: nat)
    | Authorized(id: Id)
    | MustCall(id: Id)
    | Waiting(id: Id)
    | MustSettle(id: Id, reading: Reading)
    | Stopped
    | Broken(id: Id)

  /**
   `known` is the last version that the store told, `due` the input that is to be committed next, `cut`
   the mailbox cut of the next authorization.
   */
  datatype Stage = Stage(phase: Phase, known: StateVersion, due: Option<StepInput>, cut: nat)

  datatype Segment = Segment(ownerEpoch: nat, version: StateVersion, input: StepInput, cut: nat)

  function KnownAfter(known: StateVersion, result: CommitResult): StateVersion {
    match result
    case Committed(version) => version
    case ExactReplay(version) => version
    case CasConflict(current) => current
    case _ => known
  }

  function AfterObserved(st: Stage, s: Snapshot): Option<Stage> {
    match st.phase
    case Authorized(id) =>
      Some(st.(phase := if s.raised then MustSettle(id, ControlRaised(s.reason)) else MustCall(id)))
    case Idle => Some(st.(phase := if s.raised then Stopped else Calm))
    case Calm => Some(st.(phase := if s.raised then Stopped else Calm))
    case Closed => Some(st.(phase := if s.raised then Stopped else Calm))
    case Stale(current) =>
      Some(if s.raised then st.(phase := Stopped)
           else st.(phase := Calm, cut := if current > s.generation then current else s.generation))
    case _ => None
  }

  /** A plain step, or a settlement that came from outside: on a calm control, or without an observation. */
  function AfterStep(st: Stage, input: StepInput, result: CommitResult): Option<Stage> {
    var known := KnownAfter(st.known, result);
    if st.due != Some(input) || !(st.phase.Calm? || (st.phase.Idle? && input.Settles())) then None
    else if Accepted(result) then Some(Stage(if input.Settles() then Closed else Idle, known, None, st.cut))
    else if result.CasConflict? then Some(Stage(Idle, known, st.due, st.cut))
    else Some(Stage(Stopped, known, st.due, st.cut))
  }

  /** An approval that was deferred rides on the authorization. */
  function AfterAuthorize(st: Stage, approval: Option<ApprovalSettlement>, cut: nat,
                          result: CommitResult): Option<Stage> {
    var known := KnownAfter(st.known, result);
    var rides := if approval.Some? then Some(ApprovalResolved(approval.value)) else None;
    if st.due != rides || !st.phase.Calm? || cut != st.cut then None
    else if result.Committed? then Some(Stage(Authorized(result.version.transitionId), known, None, cut))
    else if result.StaleMailboxCut? then Some(st.(phase := Stale(result.currentCut)))
    else Some(Stage(Stopped, known, st.due, cut))
  }

  /** The settlement of the segment's own dispatch: it says what was read, and is sent again after a conflict. */
  function AfterSettlement(st: Stage, input: StepInput, result: CommitResult): Option<Stage>
    requires st.phase.MustSettle?
  {
    var known := KnownAfter(st.known, result);
    if !input.EffectSettled? || input.effect.authorizationId != st.phase.id || !Says(input.effect, st.phase.reading)
       || (st.due.Some? && st.due != Some(input)) then None
    else if Accepted(result) then
      Some(Stage(if st.phase.reading == Answered(ExecutorCancelled) then Stopped else Closed, known, None, st.cut))
    else if result.CasConflict? then Some(Stage(st.phase, known, Some(input), st.cut))
    else Some(Stage(Broken(st.phase.id), known, Some(input), st.cut))
  }

  function AfterAsked(seg: Segment, st: Stage, x: Sent): Option<Stage> {
    match x.act
    case Step(revision, input, epoch, _, _) =>
      if revision != st.known.revision || epoch != seg.ownerEpoch then None
      else if st.phase.MustSettle? then AfterSettlement(st, input, x.result)
      else AfterStep(st, input, x.result)
    case Authorize(revision, approval, epoch, cut, _, _) =>
      if revision != st.known.revision || epoch != seg.ownerEpoch then None
      else AfterAuthorize(st, approval, cut, x.result)
    case _ => None
  }

  /** The request is the active one of a state, with that state's commands and messages. */
  predicate AsksFor(value: StateValue, request: ModelRequest) {
    && value.runtime.Some?
    && var rt := value.runtime.value;
       && rt.modelRequest == Some(request.requestId) && request.round == rt.round + 1
       && request.commands == rt.commands && request.messages == value.messages
  }

  function AfterModelled(st: Stage, request: ModelRequest, g: Generation): Option<Stage> {
    if !st.phase.Calm? || st.due.Some? || !AsksFor(st.known.value, request) then None
    else if g.Generated? then Some(st.(phase := Idle, due := Some(ModelCompleted(g.result))))
    else Some(st.(phase := Stopped))
  }

  function After(seg: Segment, st: Stage, e: Event): Option<Stage> {
    match e
    case Observed(s) => AfterObserved(st, s)
    case Asked(x) => AfterAsked(seg, st, x)
    case Modelled(request, g) => AfterModelled(st, request, g)
    case Called(id) => if st.phase == MustCall(id) then Some(st.(phase := Waiting(id))) else None
    case Replied(id, answer) =>
      if st.phase == Waiting(id) then Some(st.(phase := MustSettle(id, Answered(answer)))) else None
  }

  /** Where a segment stands after these events; `None` when some event is out of order. */
  function StageOf(seg: Segment, word: seq<Event>): Option<Stage> {
    if word == [] then Some(Stage(Idle, seg.version, Some(seg.input), seg.cut))
    else
      match StageOf(seg, word[..|word| - 1])
      case None => None
      case Some(st) => After(seg, st, word[|word| - 1])
  }

  lemma {:induction false} StageOneMore(seg: Segment, word: seq<Event>, e: Event)
    ensures StageOf(seg, word + [e])
         == match StageOf(seg, word) case None => None case Some(st) => After(seg, st, e)
  {
    assert (word + [e])[..|word|] == word;
  }

  /** Where the segment that began after the first `from` events of a journal stands. */
  function At(seg: Segment, journal: seq<Event>, from: nat): Option<Stage>
    requires from <= |journal|
  {
    StageOf(seg, journal[from..])
  }

  lemma {:induction false} AtOneMore(seg: Segment, before: seq<Event>, from: nat, e: Event)
    requires from <= |before| && At(seg, before, from).Some?
    ensures At(seg, before + [e], from) == After(seg, At(seg, before, from).value, e)
  {
    assert (before + [e])[from..] == before[from..] + [e];
    StageOneMore(seg, before[from..], e);
  }

  // ---------- What the order means ----------

  /** Every beginning of an ordered segment is ordered. */
  lemma {:induction false} OrderedSoFar(seg: Segment, word: seq<Event>, i: nat)
    requires StageOf(seg, word).Some? && i <= |word|
    ensures StageOf(seg, word[..i]).Some?
    ensures i < |word| ==>
      StageOf(seg, word[..i + 1]).Some?
      && StageOf(seg, word[..i + 1]) == After(seg, StageOf(seg, word[..i]).value, word[i])
    decreases |word|
  {
    hide After;
    var n := |word|;
    if i == n {
      assert word[..i] == word;
    } else if i == n - 1 {
      assert word[..n] == word && word[..n - 1] == word[..|word| - 1];
    } else {
      OrderedSoFar(seg, word[..n - 1], i);
      assert word[..n - 1][..i] == word[..i] && word[..n - 1][..i + 1] == word[..i + 1];
    }
  }

  predicate Raised(e: Event) {
    e.Observed? && e.snapshot.raised
  }

  predicate CalmlyObserved(e: Event) {
    e.Observed? && !e.snapshot.raised
  }

  predicate CommitsAuthorization(e: Event) {
    e.Asked? && e.sent.act.Authorize? && e.sent.result.Committed?
  }

  /** The event commits the dispatch authorization `id`. */
  predicate Authorizes(e: Event, id: Id) {
    CommitsAuthorization(e) && e.sent.result.version.transitionId == id
  }

  predicate Settles(e: Event, id: Id) {
    e.Asked? && e.sent.act.Step? && e.sent.act.input.EffectSettled? && e.sent.act.input.effect.authorizationId == id
  }

  lemma {:induction false} AuthorizedComesFrom(seg: Segment, word: seq<Event>, id: Id)
    requires StageOf(seg, word).Some? && StageOf(seg, word).value.phase == Authorized(id)
    ensures word != [] && Authorizes(word[|word| - 1], id)
  {
  }

  lemma {:induction false} MustCallComesFrom(seg: Segment, word: seq<Event>, id: Id)
    requires StageOf(seg, word).Some? && StageOf(seg, word).value.phase == MustCall(id)
    ensures |word| >= 2 && CalmlyObserved(word[|word| - 1]) && Authorizes(word[|word| - 2], id)
  {
    AuthorizedComesFrom(seg, word[..|word| - 1], id);
  }

  lemma {:induction false} CalmComesFrom(seg: Segment, word: seq<Event>)
    requires StageOf(seg, word).Some? && StageOf(seg, word).value.phase.Calm?
    ensures word != [] && CalmlyObserved(word[|word| - 1])
  {
  }

  /** The executor is called only right after a calm observation that follows the commit of its authorization. */
  lemma {:induction false} CalledOnlyWhenCalm(seg: Segment, word: seq<Event>, i: nat)
    requires StageOf(seg, word).Some? && i < |word| && word[i].Called?
    ensures i >= 2 && CalmlyObserved(word[i - 1]) && Authorizes(word[i - 2], word[i].authorizationId)
  {
    OrderedSoFar(seg, word, i);
    MustCallComesFrom(seg, word[..i], word[i].authorizationId);
  }

  /** Nothing is authorized, and the model is not asked, but right after a calm observation. */
  lemma {:induction false} AskedOnlyWhenCalm(seg: Segment, word: seq<Event>, i: nat)
    requires StageOf(seg, word).Some? && i < |word|
    requires word[i].Modelled? || (word[i].Asked? && word[i].sent.act.Authorize?)
    ensures i >= 1 && CalmlyObserved(word[i - 1])
  {
    OrderedSoFar(seg, word, i);
    CalmComesFrom(seg, word[..i]);
  }

  /** After an authorization comes an observation, and then the executor exactly when no control was raised. */
  lemma {:induction false} AuthorizationIsObserved(seg: Segment, word: seq<Event>, i: nat, id: Id)
    requires StageOf(seg, word).Some? && i < |word| && Authorizes(word[i], id)
    ensures i + 1 < |word| ==> word[i + 1].Observed?
    ensures i + 2 < |word| ==> (word[i + 2] == Called(id) <==> !Raised(word[i + 1]))
    ensures i + 2 < |word| && Raised(word[i + 1]) ==>
      Settles(word[i + 2], id) && Says(word[i + 2].sent.act.input.effect, ControlRaised(word[i + 1].snapshot.reason))
  {
    OrderedSoFar(seg, word, i);
    if i + 1 < |word| {
      OrderedSoFar(seg, word, i + 1);
      if i + 2 < |word| {
        OrderedSoFar(seg, word, i + 2);
      }
    }
  }

  /** A raised control ends the segment, unless it finds a dispatch to settle. */
  lemma {:induction false} RaisedEnds(seg: Segment, word: seq<Event>, i: nat)
    requires StageOf(seg, word).Some? && i < |word| && Raised(word[i])
    ensures i == |word| - 1 || (i >= 1 && CommitsAuthorization(word[i - 1]))
  {
    OrderedSoFar(seg, word, i);
    var phase := StageOf(seg, word[..i]).value.phase;
    if phase.Authorized? {
      AuthorizedComesFrom(seg, word[..i], phase.id);
    } else if i + 1 < |word| {
      OrderedSoFar(seg, word, i + 1);
    }
  }

  /** An answer of the executor is followed by the settlement that says so. */
  lemma {:induction false} AnswerIsSettled(seg: Segment, word: seq<Event>, i: nat)
    requires StageOf(seg, word).Some? && i < |word| && word[i].Replied?
    ensures i >= 1 && word[i - 1] == Called(word[i].authorizationId)
    ensures i + 1 < |word| ==>
      && Settles(word[i + 1], word[i].authorizationId)
      && Says(word[i + 1].sent.act.input.effect, Answered(word[i].reply))
  {
    OrderedSoFar(seg, word, i);
    WaitingComesFrom(seg, word[..i], word[i].authorizationId);
    if i + 1 < |word| {
      OrderedSoFar(seg, word, i + 1);
    }
  }

  lemma {:induction false} WaitingComesFrom(seg: Segment, word: seq<Event>, id: Id)
    requires StageOf(seg, word).Some? && StageOf(seg, word).value.phase == Waiting(id)
    ensures word != [] && word[|word| - 1] == Called(id)
  {
  }

  /** The model's result is the next input that is committed. */
  lemma {:induction false} ResultIsDue(seg: Segment, word: seq<Event>, i: nat, j: nat)
    requires StageOf(seg, word).Some? && i < j < |word|
    requires word[i].Modelled? && word[i].answer.Generated?
    requires word[j].Asked? && forall k :: i < k < j ==> word[k].Observed?
    ensures word[j].sent.act.Step? && word[j].sent.act.input == ModelCompleted(word[i].answer.result)
  {
    OrderedSoFar(seg, word, i);
    var k := i + 1;
    while k < j
      invariant i < k <= j
      invariant StageOf(seg, word[..k]).Some?
      invariant StageOf(seg, word[..k]).value.due == Some(ModelCompleted(word[i].answer.result))
      invariant var phase := StageOf(seg, word[..k]).value.phase; phase.Idle? || phase.Calm? || phase.Stopped?
    {
      OrderedSoFar(seg, word, k);
      k := k + 1;
    }
    OrderedSoFar(seg, word, j);
  }

  /** A segment sends no `Initial` but the one that it began with. */
  lemma {:induction false} InitialIsOwn(seg: Segment, word: seq<Event>, i: nat)
    requires StageOf(seg, word).Some? && i < |word|
    requires word[i].Asked? && word[i].sent.act.Step? && word[i].sent.act.input.Initial?
    ensures word[i].sent.act.input == seg.input
  {
    OrderedSoFar(seg, word, i);
    DueInitialIsOwn(seg, word[..i]);
  }

  lemma {:induction false} DueInitialIsOwn(seg: Segment, word: seq<Event>)
    requires StageOf(seg, word).Some?
    ensures var due := StageOf(seg, word).value.due; due.Some? && due.value.Initial? ==> due.value == seg.input
    decreases |word|
  {
    if word != [] {
      DueInitialIsOwn(seg, word[..|word| - 1]);
    }
  }

  // ---------- Open dispatches ----------

  /** The dispatch authorization that is committed and whose settlement is not, reading the requests in order. */
  function OpenDispatch(sent: seq<Sent>): Option<Id> {
    if sent == [] then None
    else
      var before, last := OpenDispatch(sent[..|sent| - 1]), sent[|sent| - 1];
      if last.act.Authorize? && last.result.Committed? then Some(last.result.version.transitionId)
      else if last.act.Step? && last.act.input.EffectSettled? && Accepted(last.result)
              && before == Some(last.act.input.effect.authorizationId) then None
      else before
  }

  lemma {:induction false} OpenDispatchAppend(sent: seq<Sent>, s: Sent)
    ensures OpenDispatch(sent + [s])
            == if s.act.Authorize? && s.result.Committed? then Some(s.result.version.transitionId)
               else if s.act.Step? && s.act.input.EffectSettled? && Accepted(s.result)
                       && OpenDispatch(sent) == Some(s.act.input.effect.authorizationId) then None
               else OpenDispatch(sent)
  {
    assert (sent + [s])[..|sent|] == sent;
  }

  function OpenIn(phase: Phase): Option<Id> {
    match phase
    case Authorized(id) => Some(id)
    case MustCall(id) => Some(id)
    case Waiting(id) => Some(id)
    case MustSettle(id, _) => Some(id)
    case Broken(id) => Some(id)
    case _ => None
  }

  /** The phases tell which dispatch is open. */
  lemma {:induction false} PhaseTellsOpen(seg: Segment, word: seq<Event>)
    requires StageOf(seg, word).Some?
    ensures OpenDispatch(Requests(word)) == OpenIn(StageOf(seg, word).value.phase)
    decreases |word|
  {
    if word != [] {
      var front, last := word[..|word| - 1], word[|word| - 1];
      PhaseTellsOpen(seg, front);
      assert word == front + [last];
      RequestsOneMore(front, last);
      if last.Asked? {
        OpenDispatchAppend(Requests(front), last.sent);
      } else {
        assert Requests(front) + [] == Requests(front);
      }
    }
  }

  /** Every settlement of an open dispatch says what was read of it: by the executor, or by the control before it. */
  lemma {:induction false} SettlementsSayWhatWasRead(seg: Segment, word: seq<Event>, i: nat)
    requires StageOf(seg, word).Some? && i < |word|
    requires word[i].Asked? && word[i].sent.act.Step? && word[i].sent.act.input.EffectSettled?
    requires OpenDispatch(Requests(word[..i])) == Some(word[i].sent.act.input.effect.authorizationId)
    ensures exists j: nat :: j < i && ReadAt(word, j, word[i].sent.act.input.effect)
  {
    OrderedSoFar(seg, word, i);
    PhaseTellsOpen(seg, word[..i]);
    var st := StageOf(seg, word[..i]).value;
    var j := ReadingComesFrom(seg, word[..i], st.phase.id, st.phase.reading);
    assert word[..i][j] == word[j];
    assert j >= 1 ==> word[..i][j - 1] == word[j - 1];
    assert ReadAt(word, j, word[i].sent.act.input.effect);
  }

  /** The event gives the reading that the settlement says, for the settlement's own authorization. */
  predicate ReadAt(word: seq<Event>, j: nat, s: EffectSettlement) {
    && j < |word|
    && ((word[j].Replied? && word[j].authorizationId == s.authorizationId && Says(s, Answered(word[j].reply)))
        || (&& Raised(word[j]) && j >= 1 && Authorizes(word[j - 1], s.authorizationId)
            && Says(s, ControlRaised(word[j].snapshot.reason))))
  }

  lemma {:induction false} ReadingComesFrom(seg: Segment, word: seq<Event>, id: Id, r: Reading) returns (j: nat)
    requires StageOf(seg, word).Some? && StageOf(seg, word).value.phase == MustSettle(id, r)
    ensures j < |word|
    ensures r.Answered? ==> word[j] == Replied(id, r.answer)
    ensures r.ControlRaised? ==>
      Raised(word[j]) && word[j].snapshot.reason == r.reason && j >= 1 && Authorizes(word[j - 1], id)
    decreases |word|
  {
    var front, last := word[..|word| - 1], word[|word| - 1];
    if last.Asked? {
      j := ReadingComesFrom(seg, front, id, r);
    } else {
      j := |word| - 1;
      if last.Observed? {
        AuthorizedComesFrom(seg, front, id);
      }
    }
  }
}
