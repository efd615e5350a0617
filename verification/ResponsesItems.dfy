/** Which output items a stream of events makes the Responses encoder open, read off the
    events alone (internal/stream_convert.go:133-246 and 288-330): where each call stands,
    and when a reasoning item is open. */
module ResponsesItems {
  import opened Canonical
  import opened ResponsesEncoderSpec
  import opened ResponsesGrammar
  import opened ResponsesMeaning

  /** A reasoning delta that says something, be it a signature. */
  predicate Thinks(e: Event) {
    e.ReasoningDelta? && (e.delta != "" || e.signature != "")
  }

  /** The first words spoken, and the first mention of a call: they open an item of their
      own and end the reasoning before it. */
  predicate Interrupts(before: seq<Event>, e: Event) {
    if e.IsTool() then CallAt(before, e.index).Unseen?
    else (e.TextDelta? || e.RefusalDelta?) && e.delta != "" && SpokenOf(before) == ""
  }

  /** Something was thought, and nothing has interrupted it since. */
  predicate Thinking(events: seq<Event>) {
    events != [] &&
    var before, e := events[..|events| - 1], events[|events| - 1];
    Thinks(e) || (Thinking(before) && !Interrupts(before, e))
  }

  function ItemsOpened(events: seq<Event>): nat {
    if events == [] then 0 else
      var before, e := events[..|events| - 1], events[|events| - 1];
      ItemsOpened(before) + if Interrupts(before, e) || (Thinks(e) && !Thinking(before)) then 1 else 0
  }

  /** The place of a call among the items: how many were opened before its first mention. */
  function PlaceOf(events: seq<Event>, i: int): int {
    if events == [] then -1 else
      var before, e := events[..|events| - 1], events[|events| - 1];
      if e.IsTool() && e.index == i && CallAt(before, i).Unseen? then ItemsOpened(before) else PlaceOf(before, i)
  }

  /** The id a call is first mentioned with. */
  function FirstID(events: seq<Event>, i: int): string {
    if events == [] then "" else
      var before, e := events[..|events| - 1], events[|events| - 1];
      if e.IsTool() && e.index == i && CallAt(before, i).Unseen? then e.callID else FirstID(before, i)
  }

  lemma SnocItems(events: seq<Event>, e: Event)
    ensures Thinking(events + [e]) == (Thinks(e) || (Thinking(events) && !Interrupts(events, e)))
    ensures ItemsOpened(events + [e]) ==
            ItemsOpened(events) + if Interrupts(events, e) || (Thinks(e) && !Thinking(events)) then 1 else 0
    ensures forall i :: PlaceOf(events + [e], i) ==
                        if e.IsTool() && e.index == i && Interrupts(events, e) then ItemsOpened(events) else PlaceOf(events, i)
    ensures forall i :: FirstID(events + [e], i) ==
                        if e.IsTool() && e.index == i && Interrupts(events, e) then e.callID else FirstID(events, i)
  {
    assert (events + [e])[..|events|] == events;
  }

  /** The encoder stands where the events say. */
  ghost predicate Places(s: Encoder, events: seq<Event>) {
    && s.nextIndex == ItemsOpened(events) && s.reasoningOpen == Thinking(events)
    && forall i | i in s.tools :: s.tools[i].outputIndex == PlaceOf(events, i)
  }

  /** What opens an item, in terms of the encoder. */
  predicate OpensItem(s: Encoder, e: Event) {
    if e.IsTool() then e.index !in s.tools else (e.TextDelta? || e.RefusalDelta?) && e.delta != "" && !s.textOpen
  }

  lemma OpensInterrupts(s: Encoder, events: seq<Event>, e: Event)
    requires Means(s, events) && (s.text == "" <==> !s.textOpen)
    ensures OpensItem(s, e) <==> Interrupts(events, e)
  {}

  /** The step from `s` to `s'` opens an item or not, and leaves reasoning open or not. */
  ghost predicate Opens(s: Encoder, s': Encoder, opens: bool, thinking: bool, index: Option<int>) {
    && s'.id == s.id && s'.nextIndex == s.nextIndex + (if opens then 1 else 0) && s'.reasoningOpen == thinking
    && (forall i | i in s'.tools :: s'.tools[i].outputIndex == if i in s.tools then s.tools[i].outputIndex else s.nextIndex)
    && (forall i | i in s'.tools && i !in s.tools :: Some(i) == index)
    && (forall i | i in s.tools :: i in s'.tools)
  }

  lemma StartOpens(s: Encoder, index: int, callID: string, name: string, signature: string)
    ensures Opens(s, WriteToolStart(s, index, callID, name, signature), index !in s.tools,
                  s.reasoningOpen && index in s.tools, Some(index))
  {
    hide FirstNonEmpty, ToolItemID;
  }

  lemma DoneOpens(s: Encoder, e: Event)
    requires e.ToolDone? && e.index in s.tools
    ensures Opens(s, WriteToolDone(s, e.index, e.callID, e.name, e.arguments, e.signature), false, s.reasoningOpen, None)
  {
    hide FirstNonEmpty, ToolItemID;
  }

  lemma SpeechOpens(s: Encoder, delta: string, refusal: bool)
    ensures var opens := delta != "" && !s.textOpen;
            Opens(s, WriteTextDelta(s, delta, refusal), opens, s.reasoningOpen && !opens, None)
  {}

  lemma ReasoningOpens(s: Encoder, delta: string, signature: string)
    ensures var thinks := delta != "" || signature != "";
            Opens(s, WriteReasoningDelta(s, delta, signature), thinks && !s.reasoningOpen, s.reasoningOpen || thinks, None)
  {}

  lemma StepOpens(s: Encoder, e: Event)
    requires !s.finished && !e.IsTerminal()
    ensures Opens(s, Step(s, e), OpensItem(s, e) || (Thinks(e) && !s.reasoningOpen),
                  Thinks(e) || (s.reasoningOpen && !OpensItem(s, e)), if e.IsTool() then Some(e.index) else None)
  {
    hide WriteTextDelta, WriteReasoningDelta, WriteToolStart, WriteToolDelta, WriteToolDone, Finish, Abort;
    if e.IsTool() {
      hide Step, Opens;
      ToolOpens(s, e);
    } else if e.ReasoningDelta? {
      hide Opens;
      ReasoningOpens(s, e.delta, e.signature);
    } else if e.TextDelta? || e.RefusalDelta? {
      hide Opens;
      SpeechOpens(s, e.delta, e.RefusalDelta?);
    }
  }

  lemma ToolOpens(s: Encoder, e: Event)
    requires !s.finished && e.IsTool()
    ensures Opens(s, Step(s, e), e.index !in s.tools, s.reasoningOpen && e.index in s.tools, Some(e.index))
  {
    hide WriteToolStart, FirstNonEmpty, ToolItemID;
    StartOpens(s, e.index, e.callID, e.name, if e.ToolDelta? then "" else e.signature);
    if e.ToolDone? {
      DoneOpens(EnsureTool(s, e.index, e.callID, e.name, e.signature), e);
    }
  }

  lemma StepPlaces(s: Encoder, events: seq<Event>, e: Event)
    requires Apart(s) && Means(s, events) && Places(s, events) && !e.IsTerminal()
    ensures Places(Step(s, e), events + [e]) && Step(s, e).id == s.id
  {
    hide Step, Means, PlaceOf, ItemsOpened, Thinking, OpensItem, Interrupts, FirstID;
    OpensInterrupts(s, events, e);
    StepOpens(s, e);
    SnocItems(events, e);
    NewCallInterrupts(s, e);
  }

  lemma NewCallInterrupts(s: Encoder, e: Event)
    ensures e.IsTool() ==> (OpensItem(s, e) <==> e.index !in s.tools)
  {}

  /** In every run each call stands at the place the events give it. */
  lemma {:induction false} RunPlaces(id: string, created: int, model: string, events: seq<Event>)
    requires NoTerminal(events)
    ensures Places(Encode(id, created, model, events), events) && Encode(id, created, model, events).id == id
  {
    hide Places, Means, Apart;
    if events == [] {
      InitPlaces(id, created, model);
    } else {
      var before, e := events[..|events| - 1], events[|events| - 1];
      assert events == before + [e];
      assert e in events && forall x <- before :: x in events;
      RunPlaces(id, created, model, before);
      RunLive(id, created, model, before);
      EncodeMeans(id, created, model, before);
      LiveApart(Encode(id, created, model, before));
      StepPlaces(Encode(id, created, model, before), before, e);
    }
  }

  lemma InitPlaces(id: string, created: int, model: string)
    ensures Places(Init(id, created, model), []) && Init(id, created, model).id == id
  {}

  // ----- Reasoning that is interrupted -----

  /** Event `q` stands between something thought at `p` and another thought at `r`. */
  predicate Parts(events: seq<Event>, p: nat, q: nat, r: nat) {
    && p < q < r < |events|
    && events[p].ReasoningDelta? && events[p].delta != "" && Thinks(events[r])
    && Interrupts(events[..q], events[q])
  }

  /** Words or a call come between one piece of reasoning and a later one. */
  ghost predicate Divided(events: seq<Event>) {
    exists p: nat, q: nat, r: nat :: Parts(events, p, q, r)
  }

  lemma PartsGrow(events: seq<Event>, e: Event, p: nat, q: nat, r: nat)
    requires r < |events|
    ensures Parts(events + [e], p, q, r) <==> Parts(events, p, q, r)
  {
    if p < q < r {
      assert (events + [e])[..q] == events[..q];
    }
  }

  /** Reasoning that is still open has not been interrupted since its last piece. */
  lemma {:induction false} ThinkingSince(events: seq<Event>) returns (r: nat)
    requires Thinking(events)
    ensures r < |events| && Thinks(events[r])
    ensures forall q: nat | r < q < |events| :: !Interrupts(events[..q], events[q])
  {
    var n: nat := |events| - 1;
    if Thinks(events[n]) {
      r := n;
    } else {
      r := ThinkingSince(events[..n]);
      forall q: nat | r < q < |events| ensures !Interrupts(events[..q], events[q]) {
        if q < n {
          assert events[..n][q] == events[q] && events[..n][..q] == events[..q];
        }
      }
    }
  }

  /** Reasoning that is not open any more was interrupted. */
  lemma {:induction false} InterruptedAfter(events: seq<Event>, p: nat) returns (q: nat)
    requires p < |events| && Thinks(events[p]) && !Thinking(events)
    ensures p < q < |events| && Interrupts(events[..q], events[q])
  {
    var n: nat := |events| - 1;
    if Interrupts(events[..n], events[n]) {
      q := n;
    } else {
      assert events[..n][p] == events[p];
      q := InterruptedAfter(events[..n], p);
      assert events[..n][..q] == events[..q];
    }
  }

  /** Where reasoning was said. */
  lemma {:induction false} WhereReasoned(events: seq<Event>)
    ensures ReasoningOf(events) != "" <==> exists p: nat :: p < |events| && events[p].ReasoningDelta? && events[p].delta != ""
  {
    if events != [] {
      var n: nat := |events| - 1;
      WhereReasoned(events[..n]);
      if p: nat :| p < n && events[p].ReasoningDelta? && events[p].delta != "" {
        assert events[..n][p] == events[p];
      }
      if p: nat :| p < n && events[..n][p].ReasoningDelta? && events[..n][p].delta != "" {
        assert events[p] == events[..n][p];
      }
      assert events[n].ReasoningDelta? && events[n].delta != "" ==>
             exists p: nat :: p < |events| && events[p].ReasoningDelta? && events[p].delta != "";
    }
  }

  /** One event more divides the reasoning when it takes it up again. */
  lemma SnocDivided(events: seq<Event>, e: Event)
    ensures Divided(events + [e]) <==>
            Divided(events) || (Thinks(e) && !Thinking(events) && ReasoningOf(events) != "")
  {
    hide Interrupts, Thinking, ReasoningOf, Parts;
    var more, n: nat := events + [e], |events|;
    if Divided(events) {
      var p: nat, q: nat, r: nat :| Parts(events, p, q, r);
      PartsAt(events, p, q, r);
      PartsGrow(events, e, p, q, r);
    }
    if Thinks(e) && !Thinking(events) && ReasoningOf(events) != "" {
      WhereReasoned(events);
      var p: nat :| p < |events| && events[p].ReasoningDelta? && events[p].delta != "";
      var q := InterruptedAfter(events, p);
      assert more[..q] == events[..q];
      PartsAt(more, p, q, n);
    }
    if Divided(more) {
      var p: nat, q: nat, r: nat :| Parts(more, p, q, r);
      PartsAt(more, p, q, r);
      if r < n {
        PartsGrow(events, e, p, q, r);
      } else {
        TakenUp(events, e, p, q);
      }
    }
  }

  lemma PartsAt(events: seq<Event>, p: nat, q: nat, r: nat)
    ensures Parts(events, p, q, r) <==>
            && p < q < r < |events|
            && events[p].ReasoningDelta? && events[p].delta != "" && Thinks(events[r])
            && Interrupts(events[..q], events[q])
  {}

  lemma TakenUp(events: seq<Event>, e: Event, p: nat, q: nat)
    requires Parts(events + [e], p, q, |events|)
    ensures Divided(events) || (Thinks(e) && !Thinking(events) && ReasoningOf(events) != "")
  {
    hide Interrupts, Thinking, ReasoningOf, Parts;
    var more, n: nat := events + [e], |events|;
    PartsAt(more, p, q, n);
    assert more[..q] == events[..q] && more[q] == events[q] && more[p] == events[p] && more[n] == e;
    WhereReasoned(events);
    if Thinking(events) {
      var r := ThinkingSince(events);
      ThoughtsDoNotInterrupt(events[..q], events[q]);
      PartsAt(events, p, q, r);
    }
  }

  lemma ThoughtsDoNotInterrupt(before: seq<Event>, e: Event)
    ensures !(Thinks(e) && Interrupts(before, e))
  {}
}
