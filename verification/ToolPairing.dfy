/** Which tool calls on a tape still lack their result. */
module ToolPairing {
  import opened Wrappers
  import opened TapeModel

  function Ids(calls: seq<Call>): seq<string> {
    if calls == [] then [] else [calls[0].id] + Ids(calls[1..])
  }

  /** The ids of the calls that wait for a result. */
  function Pending(calls: seq<Call>): multiset<string> {
    multiset(Ids(calls))
  }

  /** Neither a call nor a result. */
  predicate Neutral(e: Entry) {
    !IsCall(e) && !e.body.ToolResult?
  }

  /** Reads the tape once: a call adds its ids to the debt, a result pays one id that is owed. */
  function Debt(entries: seq<Entry>, pending: multiset<string>): Option<multiset<string>> {
    if entries == [] then Some(pending)
    else
      match entries[0].body
      case ToolCalls(_, calls, _) => Debt(entries[1..], pending + Pending(calls))
      case ToolResult(callId, _) =>
        if callId in pending then Debt(entries[1..], pending - multiset{callId}) else None
      case _ => Debt(entries[1..], pending)
  }

  predicate Owes(entries: seq<Entry>, pending: multiset<string>) {
    Debt(entries, multiset{}) == Some(pending)
  }

  /** Every call has exactly one result after it, and there is no other result. */
  predicate Paired(entries: seq<Entry>) {
    Owes(entries, multiset{})
  }

  // ---------- What the debt means ----------

  function CallIds(entries: seq<Entry>): multiset<string> {
    if entries == [] then multiset{}
    else (if IsCall(entries[0]) then Pending(entries[0].body.calls) else multiset{}) + CallIds(entries[1..])
  }

  function ResultIds(entries: seq<Entry>): multiset<string> {
    if entries == [] then multiset{}
    else
      (if entries[0].body.ToolResult? then multiset{entries[0].body.callId} else multiset{})
      + ResultIds(entries[1..])
  }

  /** Up to every point of the tape, no id has more results than calls. */
  ghost predicate ResultsFollowCalls(entries: seq<Entry>, pending: multiset<string>) {
    forall k :: 0 <= k <= |entries| ==> ResultIds(entries[..k]) <= pending + CallIds(entries[..k])
  }

  /** What is left of the debt after the first entry. */
  function After(e: Entry, pending: multiset<string>): multiset<string> {
    match e.body
    case ToolCalls(_, calls, _) => pending + Pending(calls)
    case ToolResult(callId, _) => pending - multiset{callId}
    case _ => pending
  }

  lemma {:induction false} PaidOnce(id: string, pending: multiset<string>, results: multiset<string>,
                                    calls: multiset<string>, owed: multiset<string>)
    requires id in pending
    ensures multiset{id} + results <= pending + calls <==> results <= (pending - multiset{id}) + calls
    ensures pending + calls == multiset{id} + results + owed <==> (pending - multiset{id}) + calls == results + owed
  {
    var rest := pending - multiset{id};
    assert pending + calls == multiset{id} + (rest + calls);
    assert multiset{id} + results + owed == multiset{id} + (results + owed);
    assert rest + calls == (multiset{id} + (rest + calls)) - multiset{id};
    assert results + owed == (multiset{id} + (results + owed)) - multiset{id};
  }

  lemma {:induction false} FirstEntry(entries: seq<Entry>, pending: multiset<string>, owed: multiset<string>)
    requires entries != []
    requires entries[0].body.ToolResult? ==> entries[0].body.callId in pending
    ensures ResultIds(entries) <= pending + CallIds(entries)
       <==> ResultIds(entries[1..]) <= After(entries[0], pending) + CallIds(entries[1..])
    ensures pending + CallIds(entries) == ResultIds(entries) + owed
       <==> After(entries[0], pending) + CallIds(entries[1..]) == ResultIds(entries[1..]) + owed
  {
    hide Pending;
    var results, calls := ResultIds(entries[1..]), CallIds(entries[1..]);
    assert multiset{} + results == results && multiset{} + calls == calls;
    match entries[0].body {
      case ToolCalls(_, own, _) =>
        assert pending + (Pending(own) + calls) == (pending + Pending(own)) + calls;
      case ToolResult(callId, _) =>
        PaidOnce(callId, pending, results, calls, owed);
      case _ =>
    }
  }

  lemma {:induction false} FollowsTail(entries: seq<Entry>, pending: multiset<string>)
    requires entries != []
    requires entries[0].body.ToolResult? ==> entries[0].body.callId in pending
    ensures ResultsFollowCalls(entries, pending) <==> ResultsFollowCalls(entries[1..], After(entries[0], pending))
  {
    var rest := After(entries[0], pending);
    forall k | 0 < k <= |entries|
      ensures ResultIds(entries[..k]) <= pending + CallIds(entries[..k])
         <==> ResultIds(entries[1..][..k - 1]) <= rest + CallIds(entries[1..][..k - 1])
    {
      assert entries[..k][1..] == entries[1..][..k - 1];
      FirstEntry(entries[..k], pending, multiset{});
    }
    if ResultsFollowCalls(entries, pending) {
      forall k | 0 <= k <= |entries[1..]|
        ensures ResultIds(entries[1..][..k]) <= rest + CallIds(entries[1..][..k])
      {
        assert ResultIds(entries[..k + 1]) <= pending + CallIds(entries[..k + 1]);
      }
    }
    if ResultsFollowCalls(entries[1..], rest) {
      forall k | 0 <= k <= |entries|
        ensures ResultIds(entries[..k]) <= pending + CallIds(entries[..k])
      {
        if k > 0 {
          assert ResultIds(entries[1..][..k - 1]) <= rest + CallIds(entries[1..][..k - 1]);
        }
      }
    }
  }

  lemma {:induction false} UnpaidResult(entries: seq<Entry>, pending: multiset<string>)
    requires entries != [] && entries[0].body.ToolResult? && entries[0].body.callId !in pending
    ensures !ResultsFollowCalls(entries, pending)
  {
    var one := entries[..1];
    assert one[0] == entries[0] && one[1..] == [];
    assert ResultIds(one)[entries[0].body.callId] == 1;
    assert (pending + CallIds(one))[entries[0].body.callId] == 0;
  }

  /**
   The debt is what it should be: a tape owes `owed` exactly when no result comes before its call
   and the calls are the results together with `owed`.
   */
  lemma {:induction false} DebtMeans(entries: seq<Entry>, pending: multiset<string>, owed: multiset<string>)
    ensures Debt(entries, pending) == Some(owed)
       <==> ResultsFollowCalls(entries, pending) && pending + CallIds(entries) == ResultIds(entries) + owed
    decreases |entries|
  {
    if entries == [] {
      assert forall k :: 0 <= k <= |entries| ==> entries[..k] == [];
      assert pending + multiset{} == pending && multiset{} + owed == owed;
    } else if entries[0].body.ToolResult? && entries[0].body.callId !in pending {
      UnpaidResult(entries, pending);
    } else {
      FollowsTail(entries, pending);
      FirstEntry(entries, pending, owed);
      DebtMeans(entries[1..], After(entries[0], pending), owed);
    }
  }

  // ---------- Appending ----------

  lemma {:induction false} DebtSplits(a: seq<Entry>, b: seq<Entry>, pending: multiset<string>)
    ensures Debt(a + b, pending)
         == match Debt(a, pending) case None => None case Some(owed) => Debt(b, owed)
    decreases |a|
  {
    if a == [] {
      assert a + b == b;
    } else {
      assert (a + b)[1..] == a[1..] + b;
      match a[0].body {
        case ToolCalls(_, calls, _) => DebtSplits(a[1..], b, pending + Pending(calls));
        case ToolResult(callId, _) =>
          if callId in pending {
            DebtSplits(a[1..], b, pending - multiset{callId});
          }
        case _ => DebtSplits(a[1..], b, pending);
      }
    }
  }

  lemma {:induction false} OwesAfter(entries: seq<Entry>, added: seq<Entry>, pending: multiset<string>,
                                     owed: multiset<string>)
    requires Owes(entries, pending) && Debt(added, pending) == Some(owed)
    ensures Owes(entries + added, owed)
  {
    DebtSplits(entries, added, multiset{});
  }

  /** A debt that is there already stays while others come and go. */
  lemma {:induction false} DebtGrows(added: seq<Entry>, pending: multiset<string>, more: multiset<string>)
    requires Debt(added, pending).Some?
    ensures Debt(added, pending + more) == Some(Debt(added, pending).value + more)
    decreases |added|
  {
    if added != [] {
      var e := added[0];
      DebtGrows(added[1..], After(e, pending), more);
      assert After(e, pending + more) == After(e, pending) + more;
    }
  }

  lemma {:induction false} NeutralKeepsDebt(added: seq<Entry>, pending: multiset<string>)
    requires forall e :: e in added ==> Neutral(e)
    ensures Debt(added, pending) == Some(pending)
  {
    if added != [] {
      assert Neutral(added[0]);
      NeutralKeepsDebt(added[1..], pending);
    }
  }

  /** Paired entries leave every debt as it is. */
  lemma {:induction false} PairedKeepsDebt(added: seq<Entry>, pending: multiset<string>)
    requires Paired(added)
    ensures Debt(added, pending) == Some(pending)
  {
    DebtGrows(added, multiset{}, pending);
    assert multiset{} + pending == pending;
  }

  lemma {:induction false} PairedAfterExactly(entries: seq<Entry>, added: seq<Entry>)
    requires Paired(entries)
    ensures Paired(entries + added) <==> Paired(added)
  {
    DebtSplits(entries, added, multiset{});
  }

  // ---------- The whole tape, or what of it the model sees ----------

  function Visible(entries: seq<Entry>): seq<Entry> {
    if entries == [] then []
    else (if entries[0].skipContext then [] else [entries[0]]) + Visible(entries[1..])
  }

  function Seen(entries: seq<Entry>, whole: bool): seq<Entry> {
    if whole then entries else Visible(entries)
  }

  predicate PairedAs(entries: seq<Entry>, whole: bool) {
    Paired(Seen(entries, whole))
  }

  lemma {:induction false} VisibleJoins(a: seq<Entry>, b: seq<Entry>)
    ensures Visible(a + b) == Visible(a) + Visible(b)
    decreases |a|
  {
    if a == [] {
      assert a + b == b;
    } else {
      assert (a + b)[1..] == a[1..] + b;
      VisibleJoins(a[1..], b);
    }
  }

  lemma {:induction false} SeenJoins(a: seq<Entry>, b: seq<Entry>, whole: bool)
    ensures Seen(a + b, whole) == Seen(a, whole) + Seen(b, whole)
  {
    VisibleJoins(a, b);
  }

  lemma {:induction false} AllVisible(entries: seq<Entry>)
    requires forall e :: e in entries ==> !e.skipContext
    ensures Visible(entries) == entries
  {
    if entries != [] {
      assert entries[0] in entries;
      AllVisible(entries[1..]);
    }
  }

  lemma {:induction false} VisibleIsPart(entries: seq<Entry>)
    ensures forall e :: e in Visible(entries) ==> e in entries
  {
    if entries != [] {
      VisibleIsPart(entries[1..]);
    }
  }

  lemma {:induction false} NeutralIsPairedAs(added: seq<Entry>, whole: bool)
    requires forall e :: e in added ==> Neutral(e)
    ensures PairedAs(added, whole)
  {
    VisibleIsPart(added);
    NeutralKeepsDebt(Seen(added, whole), multiset{});
  }

  /** What is appended to a paired tape leaves it paired exactly when it is paired itself. */
  lemma {:induction false} PairedAsAfterExactly(entries: seq<Entry>, added: seq<Entry>, whole: bool)
    requires PairedAs(entries, whole)
    ensures PairedAs(entries + added, whole) <==> PairedAs(added, whole)
  {
    SeenJoins(entries, added, whole);
    PairedAfterExactly(Seen(entries, whole), Seen(added, whole));
  }

  lemma {:induction false} NeutralKeepsPairedAs(entries: seq<Entry>, added: seq<Entry>, whole: bool)
    requires forall e :: e in added ==> Neutral(e)
    ensures PairedAs(entries + added, whole) <==> PairedAs(entries, whole)
  {
    SeenJoins(entries, added, whole);
    DebtSplits(Seen(entries, whole), Seen(added, whole), multiset{});
    VisibleIsPart(added);
    if Debt(Seen(entries, whole), multiset{}).Some? {
      NeutralKeepsDebt(Seen(added, whole), Debt(Seen(entries, whole), multiset{}).value);
    }
  }
}
