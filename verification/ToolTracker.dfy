/** canonicalStreamToolTracker (internal/stream_convert.go:1428-1535): the per-index
    bookkeeping every stream reader puts between upstream tool fragments and the
    canonical events it emits. */
module ToolTracker {
  import opened Canonical

  datatype ToolState = ToolState(callID: string, name: string, signature: string, arguments: string, done: bool)

  /** The value of a tracker: its map and its creation order. */
  datatype Tracker = Tracker(byIndex: map<int, ToolState>, order: seq<int>) {
    /** The order lists tracked indices only, each once. */
    ghost predicate Valid() {
      && (forall k | 0 <= k < |order| :: order[k] in byIndex)
      && (forall k, l | 0 <= k < l < |order| :: order[k] != order[l])
    }

    predicate AllDone() {
      forall i <- byIndex :: byIndex[i].done
    }
  }

  const EMPTY := Tracker(map[], [])

  function Ensure(t: Tracker, index: int, callID: string, name: string, signature: string): (t': Tracker)
    requires t.Valid()
    ensures t'.Valid() && index in t'.byIndex
  {
    var old' := if index in t.byIndex then t.byIndex[index] else ToolState("", "", "", "", false);
    var state := old'.(callID := FirstNonEmpty(old'.callID, callID),
                       name := FirstNonEmpty(old'.name, name),
                       signature := FirstNonEmpty(signature, old'.signature));
    Tracker(t.byIndex[index := state], if index in t.byIndex then t.order else t.order + [index])
  }

  function Start(t: Tracker, index: int, callID: string, name: string, signature: string): (r: (Tracker, Option<Event>))
    requires t.Valid()
    ensures r.0.Valid()
  {
    var t' := Ensure(t, index, callID, name, signature);
    var state := t'.byIndex[index];
    (t', if index in t.byIndex then None else Some(ToolStart(index, state.callID, state.name, state.signature)))
  }

  function Delta(t: Tracker, index: int, callID: string, name: string, delta: string): (r: (Tracker, Event))
    requires t.Valid()
    ensures r.0.Valid()
  {
    var t' := Ensure(t, index, callID, name, "");
    var state := t'.byIndex[index];
    (Tracker(t'.byIndex[index := state.(arguments := state.arguments + delta)], t'.order),
     ToolDelta(index, state.callID, state.name, delta))
  }

  function Done(t: Tracker, index: int, callID: string, name: string, arguments: string, signature: string)
    : (r: (Tracker, Option<Event>))
    requires t.Valid()
    ensures r.0.Valid() && index in r.0.byIndex && r.0.byIndex[index].done
    ensures r.0.order == if index in t.byIndex then t.order else t.order + [index]
  {
    var t' := Ensure(t, index, callID, name, signature);
    var state := t'.byIndex[index];
    if state.done then (t', None) else
      var state' := state.(arguments := FirstNonEmpty(arguments, state.arguments), done := true);
      (Tracker(t'.byIndex[index := state'], t'.order),
       Some(ToolDone(index, state'.callID, state'.name, state'.arguments, state'.signature)))
  }

  function Opt(e: Option<Event>): seq<Event> {
    match e
    case None => []
    case Some(event) => [event]
  }

  /** doneAll over the first `n` entries of the order. */
  function DoneFirst(t: Tracker, n: nat): (r: (Tracker, seq<Event>))
    requires t.Valid() && n <= |t.order|
    ensures r.0.Valid() && r.0.order == t.order
  {
    if n == 0 then (t, []) else
      var before := DoneFirst(t, n - 1);
      var last := Done(before.0, t.order[n - 1], "", "", "", "");
      (last.0, before.1 + Opt(last.1))
  }

  function DoneAll(t: Tracker): (r: (Tracker, seq<Event>))
    requires t.Valid()
    ensures r.0.Valid()
  {
    DoneFirst(t, |t.order|)
  }

  lemma {:induction false} DoneFirstDone(t: Tracker, n: nat, k: nat)
    requires t.Valid() && k < n <= |t.order|
    ensures DoneFirst(t, n).0.byIndex[t.order[k]].done
  {
    if k < n - 1 {
      DoneFirstDone(t, n - 1, k);
    }
  }

  /** Index of the first tracked call with this id, in creation order. */
  function IndexFrom(t: Tracker, callID: string, k: nat): (r: Option<int>)
    requires t.Valid() && k <= |t.order|
    ensures r.Some? ==> r.value in t.byIndex && t.byIndex[r.value].callID == callID
    ensures r.None? ==> forall l | k <= l < |t.order| :: t.byIndex[t.order[l]].callID != callID
    decreases |t.order| - k
  {
    if k == |t.order| then None
    else if t.byIndex[t.order[k]].callID == callID then Some(t.order[k])
    else IndexFrom(t, callID, k + 1)
  }

  function IndexForCallID(t: Tracker, callID: string): Option<int>
    requires t.Valid()
  {
    if callID == "" then None else IndexFrom(t, callID, 0)
  }

  /** canonicalStreamToolTracker itself, updated in place. */
  class ToolCallTracker {
    var byIndex: map<int, ToolState>
    var order: seq<int>

    function View(): Tracker
      reads this
    {
      Tracker(byIndex, order)
    }

    constructor ()
      ensures View() == EMPTY
    {
      byIndex, order := map[], [];
    }

    method EnsureState(index: int, callID: string, name: string, signature: string) returns (created: bool)
      requires View().Valid()
      modifies this
      ensures View() == Ensure(old(View()), index, callID, name, signature)
      ensures created <==> index !in old(byIndex)
    {
      created := index !in byIndex;
      if created {
        byIndex := byIndex[index := ToolState("", "", "", "", false)];
        order := order + [index];
      }
      var state := byIndex[index];
      if state.callID == "" && callID != "" {
        state := state.(callID := callID);
      }
      if state.name == "" && name != "" {
        state := state.(name := name);
      }
      if signature != "" {
        state := state.(signature := signature);
      }
      byIndex := byIndex[index := state];
    }

    method FindCallID(callID: string) returns (r: Option<int>)
      requires View().Valid()
      ensures r == IndexForCallID(View(), callID)
    {
      if callID == "" {
        return None;
      }
      var k := 0;
      while k < |order|
        invariant k <= |order|
        invariant IndexFrom(View(), callID, 0) == IndexFrom(View(), callID, k)
      {
        if byIndex[order[k]].callID == callID {
          return Some(order[k]);
        }
        k := k + 1;
      }
      return None;
    }

    method StartCall(index: int, callID: string, name: string, signature: string) returns (e: Option<Event>)
      requires View().Valid()
      modifies this
      ensures (View(), e) == Start(old(View()), index, callID, name, signature)
    {
      var created := EnsureState(index, callID, name, signature);
      if !created {
        return None;
      }
      var state := byIndex[index];
      e := Some(ToolStart(index, state.callID, state.name, state.signature));
    }

    method AddDelta(index: int, callID: string, name: string, delta: string) returns (e: Event)
      requires View().Valid()
      modifies this
      ensures (View(), e) == Delta(old(View()), index, callID, name, delta)
    {
      var _ := EnsureState(index, callID, name, "");
      var state := byIndex[index];
      byIndex := byIndex[index := state.(arguments := state.arguments + delta)];
      e := ToolDelta(index, state.callID, state.name, delta);
    }

    method FinishCall(index: int, callID: string, name: string, arguments: string, signature: string)
      returns (e: Option<Event>)
      requires View().Valid()
      modifies this
      ensures (View(), e) == Done(old(View()), index, callID, name, arguments, signature)
    {
      var _ := EnsureState(index, callID, name, signature);
      var state := byIndex[index];
      if state.done {
        return None;
      }
      if arguments != "" {
        state := state.(arguments := arguments);
      }
      state := state.(done := true);
      byIndex := byIndex[index := state];
      e := Some(ToolDone(index, state.callID, state.name, state.arguments, state.signature));
    }

    method FinishAll() returns (events: seq<Event>)
      requires View().Valid()
      modifies this
      ensures (View(), events) == DoneAll(old(View()))
    {
      events := [];
      var k := 0;
      while k < |order|
        invariant 0 <= k <= |order| && order == old(order)
        invariant View() == DoneFirst(old(View()), k).0 && events == DoneFirst(old(View()), k).1
      {
        var e := FinishCall(order[k], "", "", "", "");
        assert (View(), e) == Done(DoneFirst(old(View()), k).0, order[k], "", "", "", "");
        events := events + Opt(e);
        k := k + 1;
      }
    }
  }

  lemma OrderIsTracked(t: Tracker, k: nat)
    requires t.Valid() && k < |t.order|
    ensures t.order[k] in t.byIndex
  {}

  lemma DoneQuiet(t: Tracker, index: int)
    requires t.Valid() && t.AllDone() && index in t.byIndex
    ensures Done(t, index, "", "", "", "").0.AllDone() && Done(t, index, "", "", "", "").1 == None
  {}

  /** doneAll says nothing when every call is done. */
  lemma {:induction false} DoneFirstQuiet(t: Tracker, n: nat)
    requires t.Valid() && t.AllDone() && n <= |t.order|
    ensures DoneFirst(t, n).0.AllDone() && DoneFirst(t, n).1 == []
  {
    hide Done, Tracker.AllDone, Tracker.Valid;
    if n > 0 {
      DoneFirstQuiet(t, n - 1);
      var before := DoneFirst(t, n - 1).0;
      assert t.order[n - 1] in before.byIndex by { OrderIsTracked(before, n - 1); }
      DoneQuiet(before, t.order[n - 1]);
    }
  }

  // ----- A tracker keeps pace with the events it lets through -----

  /** The tracker agrees with the stream emitted so far: same indices in the same
      order, same fragments, closed exactly when done; nothing started or done twice. */
  ghost predicate Tracks(t: Tracker, events: seq<Event>) {
    && t.Valid()
    && t.order == ToolOrder(events)
    && OnceEach(events)
    && Started(events) <= t.byIndex.Keys
    && (forall i | i in t.byIndex :: Agrees(t.byIndex[i], CallAt(events, i)))
  }

  /** Ids and names a stream has shown are those of the tracker; the tracker may know
      one the stream has not shown yet, until Done shows it. */
  ghost predicate Agrees(state: ToolState, call: Call) {
    match call
    case Unseen => false
    case Open(id, name, arguments) =>
      && !state.done && arguments == state.arguments
      && (id == state.callID || id == "") && (name == state.name || name == "")
    case Closed(id, name, _) =>
      && state.done
      && (id == state.callID || id == "") && (name == state.name || name == "")
  }

  lemma TracksEmpty()
    ensures Tracks(EMPTY, [])
  {}

  /** Events about other things leave the agreement alone. */
  lemma TracksOther(t: Tracker, events: seq<Event>, e: Event)
    requires Tracks(t, events) && !e.IsTool()
    ensures Tracks(t, events + [e])
  {
    Snoc(events, e);
    SnocOnceEach(events, e);
    forall i | i in t.byIndex ensures Agrees(t.byIndex[i], CallAt(events + [e], i)) {
      SnocCall(events, e, i);
    }
  }

  /** One tool event at `index`, seen through the map of the tracker. */
  lemma TracksStep(t: Tracker, events: seq<Event>, t': Tracker, e: Event, index: int)
    requires Tracks(t, events) && t'.Valid()
    requires e.IsTool() && e.index == index
    requires t'.byIndex.Keys == t.byIndex.Keys + {index}
    requires forall i | i in t.byIndex && i != index :: t'.byIndex[i] == t.byIndex[i]
    requires t'.order == if index in t.byIndex then t.order else t.order + [index]
    requires Agrees(t'.byIndex[index], CallStep(CallAt(events, index), e))
    requires e.ToolStart? ==> index !in t.byIndex
    requires e.ToolDone? ==> index in t.byIndex ==> !t.byIndex[index].done
    ensures Tracks(t', events + [e])
  {
    hide CallAt, OnceEach, ToolOrder, Started, CallStep;
    ToolOrderIsSeen(events);
    Snoc(events, e);
    SnocOnceEach(events, e);
    forall i | i in t'.byIndex ensures Agrees(t'.byIndex[i], CallAt(events + [e], i)) {
      SnocCall(events, e, i);
    }
  }

  lemma TracksStart(t: Tracker, events: seq<Event>, index: int, callID: string, name: string, signature: string)
    requires Tracks(t, events)
    ensures Tracks(Start(t, index, callID, name, signature).0, events + Opt(Start(t, index, callID, name, signature).1))
  {
    var (t', e) := Start(t, index, callID, name, signature);
    ToolOrderIsSeen(events);
    if e.Some? {
      TracksStep(t, events, t', e.value, index);
    } else {
      assert events + Opt(e) == events;
    }
  }

  lemma TracksDelta(t: Tracker, events: seq<Event>, index: int, callID: string, name: string, delta: string)
    requires Tracks(t, events)
    ensures Tracks(Delta(t, index, callID, name, delta).0, events + [Delta(t, index, callID, name, delta).1])
  {
    var (t', e) := Delta(t, index, callID, name, delta);
    ToolOrderIsSeen(events);
    TracksStep(t, events, t', e, index);
  }

  lemma TracksDone(t: Tracker, events: seq<Event>, index: int, callID: string, name: string, arguments: string, signature: string)
    requires Tracks(t, events)
    ensures Tracks(Done(t, index, callID, name, arguments, signature).0, events + Opt(Done(t, index, callID, name, arguments, signature).1))
  {
    var (t', e) := Done(t, index, callID, name, arguments, signature);
    ToolOrderIsSeen(events);
    if e.Some? {
      TracksStep(t, events, t', e.value, index);
    } else {
      assert events + Opt(e) == events;
    }
  }

  lemma TracksIsValid(t: Tracker, events: seq<Event>)
    requires Tracks(t, events)
    ensures t.Valid()
  {}

  lemma {:induction false} TracksDoneFirst(t: Tracker, events: seq<Event>, n: nat)
    requires Tracks(t, events) && n <= |t.order|
    ensures Tracks(DoneFirst(t, n).0, events + DoneFirst(t, n).1)
  {
    hide Done, Tracks;
    assert t.Valid() by { TracksIsValid(t, events); }
    if n == 0 {
      assert events + [] == events;
    } else {
      TracksDoneFirst(t, events, n - 1);
      var before := DoneFirst(t, n - 1);
      TracksDone(before.0, events + before.1, t.order[n - 1], "", "", "", "");
      var last := Done(before.0, t.order[n - 1], "", "", "", "");
      assert events + (before.1 + Opt(last.1)) == events + before.1 + Opt(last.1);
    }
  }

  /** doneAll leaves no call open, and the agreement stands. */
  lemma TracksDoneAll(t: Tracker, events: seq<Event>)
    requires Tracks(t, events)
    ensures Tracks(DoneAll(t).0, events + DoneAll(t).1) && DoneAll(t).0.AllDone()
  {
    TracksDoneFirst(t, events, |t.order|);
    var t', more := DoneAll(t).0, events + DoneAll(t).1;
    OrderMatchesMap(t', more);
    forall i | i in t'.byIndex ensures t'.byIndex[i].done {
      var k :| 0 <= k < |t'.order| && t'.order[k] == i;
      DoneFirstDone(t, |t.order|, k);
    }
  }

  /** The order list has no duplicates and lists exactly the keys of the map. */
  lemma OrderMatchesMap(t: Tracker, events: seq<Event>)
    requires Tracks(t, events)
    ensures forall i :: i in t.order <==> i in t.byIndex
    ensures forall k, l | 0 <= k < l < |t.order| :: t.order[k] != t.order[l]
  {
    ToolOrderIsSeen(events);
  }

  /** When every tracked call is done, every index the stream mentions has exactly
      one Done and at most one Start, which comes first. */
  lemma AllDoneMeansExactlyOnce(t: Tracker, events: seq<Event>)
    requires Tracks(t, events) && t.AllDone()
    ensures OnceEach(events)
    ensures forall i | i in ToolOrder(events) :: exists p :: IsOnlyDone(events, i, p)
  {
    forall i | i in ToolOrder(events) ensures exists p :: IsOnlyDone(events, i, p) {
      assert i in t.byIndex;
      ExactlyOneDone(events, i);
    }
  }
}
