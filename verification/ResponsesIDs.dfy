/** Which call ids survive the Responses protocol. The encoder writes an id as it is; the
    reader takes an empty one for the item id (internal/stream_convert.go:1106), and looks
    the calls of the terminal frame up by an id that counts a blank one as missing
    (internal/protocol/openai_responses.go:389). A call it does not find there is told
    again, at the place after all calls, unless a call stands at that place. */
module ResponsesIDs {
  import opened Canonical
  import opened ResponsesEncoderSpec
  import opened ResponsesItems

  /** What a stream has mentioned: the calls in order, and the id each came with. */
  datatype Mentions = Mentions(order: seq<int>, first: map<int, string>) {
    function With(index: int, callID: string): Mentions {
      Mentions(order + [index], first[index := callID])
    }
  }

  function MentionsOf(events: seq<Event>): Mentions {
    Mentions(ToolOrder(events), map i | i in ToolOrder(events) :: FirstID(events, i))
  }

  lemma SnocMentions(events: seq<Event>, e: Event)
    ensures MentionsOf(events + [e]) ==
            if e.IsTool() && e.index !in ToolOrder(events) then MentionsOf(events).With(e.index, e.callID) else MentionsOf(events)
  {
    hide ToolOrder, FirstID, PlaceOf, ItemsOpened, Thinking, Interrupts, CallAt, Event.IsTool;
    Snoc(events, e);
    SnocItems(events, e);
    NewInterrupts(events, e);
    var more := MentionsOf(events + [e]);
    forall i | i in ToolOrder(events + [e]) ensures more.first[i] == FirstID(events + [e], i) {}
  }

  lemma NewInterrupts(events: seq<Event>, e: Event)
    ensures e.IsTool() ==> (Interrupts(events, e) <==> e.index !in ToolOrder(events))
  {
    ToolOrderIsSeen(events);
  }

  function IDOf(call: Call): string {
    match call
    case Unseen => ""
    case Open(id, _, _) => id
    case Closed(id, _, _) => id
  }

  /** The place after all calls belongs to a call. */
  ghost predicate PlaceTaken(sent: seq<Event>) {
    exists i :: i in ToolOrder(sent) && PlaceOf(sent, i) == |ToolOrder(sent)|
  }

  /** Some call came with the item id of call `i` as its own id. */
  ghost predicate ItemIDGiven(id: string, sent: seq<Event>, i: int) {
    exists k :: k in ToolOrder(sent) && FirstID(sent, k) == ToolItemID(id, i)
  }

  /** A call that came without an id ends with its item id. */
  ghost predicate EmptyReturn(id: string, sent: seq<Event>) {
    forall i | i in ToolOrder(sent) && FirstID(sent, i) == "" :: IDOf(CallAt(sent, i)) == ToolItemID(id, i)
  }

  /** A call that came with an id of spaces is found by its item id. */
  ghost predicate BlankFound(id: string, sent: seq<Event>) {
    forall i | i in ToolOrder(sent) && FirstID(sent, i) != "" && IsBlank(FirstID(sent, i)) :: ItemIDGiven(id, sent, i)
  }

  /** The calls of a stream come back as they were sent. */
  ghost predicate IdsReturn(id: string, sent: seq<Event>) {
    EmptyReturn(id, sent) && (BlankFound(id, sent) || PlaceTaken(sent))
  }

  ghost predicate NoneBlank(events: seq<Event>, order: seq<int>) {
    forall i | i in order :: !IsBlank(FirstID(events, i))
  }

  lemma {:induction false} FirstIsNonBlank(events: seq<Event>)
    ensures IdsNonBlank(events) <==> NoneBlank(events, ToolOrder(events))
  {
    hide IsBlank, IdsNonBlank, CallAt, FirstID;
    if events == [] {
      NothingBlank();
    } else {
      var n := |events| - 1;
      var before, e := events[..n], events[n];
      assert events == before + [e];
      FirstIsNonBlank(before);
      ToolOrderIsSeen(before);
      Snoc(before, e);
      SnocItems(before, e);
      NonBlankSnoc(before, e);
      if e.IsTool() && e.index !in ToolOrder(before) {
        assert e.index in ToolOrder(events);
      }
      forall i | i in ToolOrder(before) ensures i in ToolOrder(events) && FirstID(events, i) == FirstID(before, i) {}
    }
  }

  lemma NothingBlank()
    ensures IdsNonBlank([])
  {}

  lemma NonBlankSnoc(events: seq<Event>, e: Event)
    ensures IdsNonBlank(events + [e]) <==>
            IdsNonBlank(events) && (e.IsTool() && CallAt(events, e.index).Unseen? ==> !IsBlank(e.callID))
  {
    hide CallAt, IsBlank;
    var more := events + [e];
    assert more[..|events|] == events && more[|events|] == e;
    forall p | 0 <= p < |events| ensures more[p] == events[p] && more[..p] == events[..p] {}
  }

  /** Ids that are not blank return. */
  lemma NonBlankReturn(id: string, sent: seq<Event>)
    requires IdsNonBlank(sent)
    ensures IdsReturn(id, sent)
  {
    FirstIsNonBlank(sent);
    forall i | i in ToolOrder(sent) ensures FirstID(sent, i) != "" && !IsBlank(FirstID(sent, i)) {}
  }

  /** Where no id is empty or an item id of the encoder: they return exactly when none is
      blank, or a call stands at the place after all calls. */
  lemma PlainReturn(id: string, sent: seq<Event>)
    requires forall i | i in ToolOrder(sent) :: FirstID(sent, i) != ""
    requires forall i, k | i in ToolOrder(sent) && k in ToolOrder(sent) :: FirstID(sent, k) != ToolItemID(id, i)
    ensures IdsReturn(id, sent) <==> IdsNonBlank(sent) || PlaceTaken(sent)
  {
    hide PlaceTaken;
    FirstIsNonBlank(sent);
    assert NoneBlank(sent, ToolOrder(sent)) <==> BlankFound(id, sent);
  }
}
