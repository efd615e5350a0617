/** What a finished reasoning item of a Responses stream says. The encoder never resets
    its reasoning text, so an item that closes after an earlier one repeats it
    (internal/stream_convert.go:164-169 and 212-246). */
module ResponsesReasoning {
  import opened Canonical
  import opened ResponsesFrames
  import opened ResponsesEncoderSpec
  import opened ResponsesGrammar
  import opened ResponsesMeaning
  import opened ResponsesItems

  /** Everything the reasoning deltas of a stream say. */
  function AllReasoning(frames: seq<Frame>): string {
    if frames == [] then "" else
      var b := frames[|frames| - 1].body;
      AllReasoning(frames[..|frames| - 1]) + if b.SummaryTextDelta? then b.delta else ""
  }

  /** What the reasoning deltas of one output index say. */
  function OwnReasoning(frames: seq<Frame>, j: int): string {
    if frames == [] then "" else
      var b := frames[|frames| - 1].body;
      OwnReasoning(frames[..|frames| - 1], j) + if b.SummaryTextDelta? && b.outputIndex == j then b.delta else ""
  }

  ghost predicate OnlyReasoningAt(frames: seq<Frame>, j: int) {
    forall k | 0 <= k < |frames| && frames[k].body.SummaryTextDelta? :: frames[k].body.outputIndex == j
  }

  predicate ClosesReasoning(b: Body) {
    b.ItemDone? && b.item.kind == Reasoning
  }

  /** A frame that neither adds to the reasoning nor closes it. */
  predicate Other(b: Body) {
    !ClosesReasoning(b) && !b.SummaryTextDelta?
  }

  // ----- What each operation writes of reasoning -----

  /** From `s` to `s'` only other frames are written. */
  ghost predicate Quiet(s: Encoder, s': Encoder) {
    && s'.reasoning == s.reasoning && s'.reasoningIndex == s.reasoningIndex && s.frames <= s'.frames
    && forall k | |s.frames| <= k < |s'.frames| :: Other(s'.frames[k].body)
  }

  lemma QuietEmit(s: Encoder, s': Encoder, b: Body)
    requires Other(b) && s'.frames == s.frames + [Frame(s.sequence, b)]
    requires s'.reasoning == s.reasoning && s'.reasoningIndex == s.reasoningIndex
    ensures Quiet(s, s')
  {}

  lemma QuietThen(s: Encoder, s': Encoder, s'': Encoder)
    requires Quiet(s, s') && Quiet(s', s'')
    ensures Quiet(s, s'')
  {
    forall k | |s.frames| <= k < |s''.frames| ensures Other(s''.frames[k].body) {
      if k < |s'.frames| {
        assert s''.frames[k] == s'.frames[k];
      }
    }
  }

  lemma TextQuiet(s: Encoder, delta: string, refusal: bool)
    requires delta != ""
    ensures Quiet(if s.textOpen then s else CloseReasoning(s), WriteTextDelta(s, delta, refusal))
  {
    hide CloseReasoning;
  }

  lemma StartQuiet(s: Encoder, index: int, callID: string, name: string, signature: string)
    ensures Quiet(if index in s.tools then s else CloseReasoning(s), WriteToolStart(s, index, callID, name, signature))
  {
    hide CloseReasoning, FirstNonEmpty, ToolItemID;
  }

  lemma DeltaQuiet(s: Encoder, e: Event)
    requires e.ToolDelta? && e.index in s.tools
    ensures Quiet(s, WriteToolDelta(s, e.index, e.callID, e.name, e.delta))
  {}

  lemma DoneQuiet(s: Encoder, index: int, callID: string, name: string, arguments: string, signature: string)
    requires index in s.tools
    ensures Quiet(s, WriteToolDone(s, index, callID, name, arguments, signature))
  {
    hide FirstNonEmpty;
  }

  lemma ToolQuiet(s: Encoder, e: Event)
    requires e.IsTool() && !s.finished
    ensures Quiet(if e.index in s.tools then s else CloseReasoning(s), Step(s, e))
  {
    hide CloseReasoning, WriteToolStart, Quiet;
    StartQuiet(s, e.index, e.callID, e.name, if e.ToolDelta? then "" else e.signature);
    match e {
      case ToolStart(_, _, _, _) =>
      case ToolDelta(index, callID, name, _) =>
        var ready := EnsureTool(s, index, callID, name, "");
        DeltaQuiet(ready, e);
        if index !in s.tools {
          QuietThen(CloseReasoning(s), ready, Step(s, e));
        }
      case ToolDone(index, callID, name, arguments, signature) =>
        var ready := EnsureTool(s, index, callID, name, signature);
        DoneQuiet(ready, index, callID, name, arguments, signature);
        if index !in s.tools {
          QuietThen(CloseReasoning(s), ready, Step(s, e));
        }
    }
  }

  lemma CloseTextQuiet(s: Encoder, status: string)
    ensures Quiet(s, CloseText(s, status))
  {}

  lemma {:induction false} CloseToolsQuiet(s: Encoder, indexes: seq<int>)
    ensures Quiet(s, CloseTools(s, indexes))
  {
    hide Quiet, WriteToolDone;
    if indexes == [] {
      QuietNothing(s);
    } else {
      var before, i := CloseTools(s, indexes[..|indexes| - 1]), indexes[|indexes| - 1];
      CloseToolsQuiet(s, indexes[..|indexes| - 1]);
      if i in before.tools && !before.tools[i].done {
        var tool := before.tools[i];
        DoneQuiet(before, i, tool.id, tool.name, tool.arguments, tool.signature);
        QuietThen(s, before, CloseTool(before, i));
      }
    }
  }

  lemma QuietNothing(s: Encoder)
    ensures Quiet(s, s)
  {}

  lemma FinishQuiet(s: Encoder, status: string, reason: string, indexes: seq<int>)
    requires !s.finished
    ensures Quiet(CloseReasoning(s), Finish(s, status, reason, s.usage, indexes))
  {
    hide Quiet, CloseReasoning, CloseText, CloseTools, Finish;
    var status' := ResponseStatus(status, reason, if s.textRefusal then s.text else "");
    var quiet := CloseReasoning(s);
    var said := CloseText(quiet, status');
    var closed := CloseTools(said, indexes);
    CloseTextQuiet(quiet, status');
    CloseToolsQuiet(said, indexes);
    QuietThen(quiet, said, closed);
    TerminalQuiet(s, status, reason, indexes, closed);
    QuietThen(quiet, closed, Finish(s, status, reason, s.usage, indexes));
  }

  lemma TerminalQuiet(s: Encoder, status: string, reason: string, indexes: seq<int>, closed: Encoder)
    requires !s.finished
    requires closed == CloseAll(s, ResponseStatus(status, reason, if s.textRefusal then s.text else ""), indexes)
    ensures Quiet(closed, Finish(s, status, reason, s.usage, indexes))
  {
    hide Quiet, CloseAll, ResponseStatus, TerminalResponse;
    var status' := ResponseStatus(status, reason, if s.textRefusal then s.text else "");
    var resp := TerminalResponse(closed, status', reason);
    assert s.(usage := if s.usage.IsZero() then s.usage else s.usage) == s;
    QuietEmit(closed, Finish(s, status, reason, s.usage, indexes), if status' == "incomplete" then Incomplete(resp) else Completed(resp));
  }

  /** The event ends the reasoning, if any is open. */
  predicate EndsReasoning(s: Encoder, e: Event) {
    e.ResponseDone? || OpensItem(s, e)
  }

  /** Every event that is not a thought closes the reasoning first, or leaves it alone. */
  lemma StepQuiet(s: Encoder, e: Event)
    requires !s.finished && !Thinks(e)
    ensures Quiet(if EndsReasoning(s, e) then CloseReasoning(s) else s, Step(s, e))
  {
    hide CloseReasoning, Finish, EnsureText, WriteToolStart, WriteToolDelta, WriteToolDone;
    if e.IsTool() {
      hide Quiet, Step;
      ToolQuiet(s, e);
    } else if (e.TextDelta? || e.RefusalDelta?) && e.delta != "" {
      hide Quiet;
      TextQuiet(s, e.delta, e.RefusalDelta?);
    } else if e.ResponseDone? {
      hide Quiet;
      FinishQuiet(s, e.status, e.finishReason, SortedKeys(s.tools.Keys));
    }
  }

  // ----- What the frames say of reasoning -----

  /** Frames that bring no reasoning. */
  lemma {:induction false} NoReasoningAdded(frames: seq<Frame>, longer: seq<Frame>, j: int)
    requires frames <= longer && forall k | |frames| <= k < |longer| :: !longer[k].body.SummaryTextDelta?
    ensures AllReasoning(longer) == AllReasoning(frames) && OwnReasoning(longer, j) == OwnReasoning(frames, j)
    ensures OnlyReasoningAt(longer, j) <==> OnlyReasoningAt(frames, j)
  {
    if |longer| == |frames| {
      assert longer == frames;
    } else {
      NoReasoningAdded(frames, longer[..|longer| - 1], j);
      assert AllReasoning(longer) == AllReasoning(longer[..|longer| - 1]) + "";
      assert OwnReasoning(longer, j) == OwnReasoning(longer[..|longer| - 1], j) + "";
      forall k | 0 <= k < |longer| - 1 ensures longer[..|longer| - 1][k] == longer[k] {}
    }
  }

  lemma ReasoningAdded(frames: seq<Frame>, f: Frame, j: int)
    requires f.body.SummaryTextDelta?
    ensures AllReasoning(frames + [f]) == AllReasoning(frames) + f.body.delta
    ensures OnlyReasoningAt(frames + [f], j) <==> OnlyReasoningAt(frames, j) && f.body.outputIndex == j
  {
    var longer := frames + [f];
    assert longer[..|frames|] == frames && longer[|frames|] == f;
    forall k | 0 <= k < |frames| ensures longer[k] == frames[k] {}
  }

  /** A finished reasoning item says everything reasoned so far, its own or not; and no
      reasoning delta is empty. */
  ghost predicate Cumulative(frames: seq<Frame>) {
    && (forall k | 0 <= k < |frames| && ClosesReasoning(frames[k].body) ::
          frames[k].body.item.summary == [SummaryText(AllReasoning(frames[..k]))])
    && (forall k | 0 <= k < |frames| && frames[k].body.SummaryTextDelta? :: frames[k].body.delta != "")
  }

  ghost predicate Keeps(s: Encoder) {
    Cumulative(s.frames) && s.reasoning == AllReasoning(s.frames)
  }

  lemma QuietKeeps(s: Encoder, s': Encoder)
    requires Keeps(s) && Quiet(s, s')
    ensures Keeps(s')
  {
    NoReasoningAdded(s.frames, s'.frames, 0);
    forall k | 0 <= k < |s'.frames| && ClosesReasoning(s'.frames[k].body)
      ensures s'.frames[k].body.item.summary == [SummaryText(AllReasoning(s'.frames[..k]))]
    {
      assert s'.frames[k] == s.frames[k] && s'.frames[..k] == s.frames[..k];
    }
  }

  /** Closing writes three frames, the last of which closes. */
  lemma Closes(s: Encoder)
    requires s.reasoningOpen
    ensures var s', n := CloseReasoning(s), |s.frames|;
            && s'.reasoning == s.reasoning && s'.reasoningIndex == s.reasoningIndex
            && s.frames <= s'.frames && |s'.frames| == n + 3
            && Other(s'.frames[n].body) && Other(s'.frames[n + 1].body)
            && ClosesReasoning(s'.frames[n + 2].body) && s'.frames[n + 2].body.outputIndex == s.reasoningIndex
            && s'.frames[n + 2].body.item.summary == [SummaryText(s.reasoning)]
  {}

  lemma CloseReasoningKeeps(s: Encoder)
    requires Keeps(s)
    ensures Keeps(CloseReasoning(s))
  {
    hide CloseReasoning;
    if s.reasoningOpen {
      Closes(s);
      var s', n := CloseReasoning(s), |s.frames|;
      NoReasoningAdded(s.frames, s'.frames[..n + 2], 0);
      NoReasoningAdded(s.frames, s'.frames, 0);
      forall k | 0 <= k < |s'.frames| && ClosesReasoning(s'.frames[k].body)
        ensures s'.frames[k].body.item.summary == [SummaryText(AllReasoning(s'.frames[..k]))]
      {
        assert k < n ==> s'.frames[k] == s.frames[k] && s'.frames[..k] == s.frames[..k];
      }
    } else {
      assert CloseReasoning(s) == s by { ClosedAlready(s); }
    }
  }

  lemma ClosedAlready(s: Encoder)
    requires !s.reasoningOpen
    ensures CloseReasoning(s) == s
  {}

  /** A thought: the item is opened if it is not, and a delta is written unless empty. */
  lemma ThoughtFrames(s: Encoder, e: Event)
    requires !s.finished && Thinks(e)
    ensures var ready, s' := EnsureReasoning(s), Step(s, e);
            && ready.reasoning == s.reasoning && ready.frames == s.frames + ready.frames[|s.frames|..]
            && (forall k | |s.frames| <= k < |ready.frames| :: Other(ready.frames[k].body))
            && ready.reasoningIndex == (if s.reasoningOpen then s.reasoningIndex else s.nextIndex)
            && s'.reasoningIndex == ready.reasoningIndex && s'.reasoning == s.reasoning + e.delta
            && s'.frames == ready.frames + if e.delta == "" then []
                            else [Frame(ready.sequence, SummaryTextDelta(s.id + "_reasoning", ready.reasoningIndex, e.delta))]
  {
    assert s.reasoning + "" == s.reasoning;
  }

  lemma ThoughtKeeps(s: Encoder, e: Event)
    requires Keeps(s) && !s.finished && Thinks(e)
    ensures Keeps(Step(s, e))
  {
    hide Step, EnsureReasoning;
    ThoughtFrames(s, e);
    var ready, s' := EnsureReasoning(s), Step(s, e);
    QuietKeeps(s, s.(frames := ready.frames));
    if e.delta != "" {
      var f := s'.frames[|ready.frames|];
      ReasoningAdded(ready.frames, f, 0);
      forall k | 0 <= k < |s'.frames| && ClosesReasoning(s'.frames[k].body)
        ensures s'.frames[k].body.item.summary == [SummaryText(AllReasoning(s'.frames[..k]))]
      {
        assert s'.frames[k] == ready.frames[k] && s'.frames[..k] == ready.frames[..k];
      }
    } else {
      assert s'.frames == ready.frames;
    }
  }

  lemma StepKeeps(s: Encoder, e: Event)
    requires Keeps(s)
    ensures Keeps(Step(s, e))
  {
    hide Keeps, Quiet, CloseReasoning;
    if s.finished {
    } else if Thinks(e) {
      ThoughtKeeps(s, e);
    } else {
      hide Step;
      CloseReasoningKeeps(s);
      StepQuiet(s, e);
      QuietKeeps(if EndsReasoning(s, e) then CloseReasoning(s) else s, Step(s, e));
    }
  }

  lemma InitKeeps(id: string, created: int, model: string)
    ensures Keeps(Init(id, created, model))
  {
    assert AllReasoning([]) == "";
  }

  /** In every run, a finished reasoning item says all the reasoning so far. */
  lemma {:induction false} ReasoningIsCumulative(id: string, created: int, model: string, events: seq<Event>)
    ensures Keeps(Encode(id, created, model, events))
  {
    hide Keeps, Step;
    if events == [] {
      InitKeeps(id, created, model);
    } else {
      ReasoningIsCumulative(id, created, model, events[..|events| - 1]);
      StepKeeps(Encode(id, created, model, events[..|events| - 1]), events[|events| - 1]);
    }
  }

  // ----- When it says no more than its own -----

  lemma {:induction false} OwnIsAll(frames: seq<Frame>, j: int)
    requires forall k | 0 <= k < |frames| && frames[k].body.SummaryTextDelta? :: frames[k].body.delta != ""
    ensures |OwnReasoning(frames, j)| <= |AllReasoning(frames)|
    ensures OwnReasoning(frames, j) == AllReasoning(frames) <==> OnlyReasoningAt(frames, j)
    ensures |OwnReasoning(frames, j)| == |AllReasoning(frames)| <==> OnlyReasoningAt(frames, j)
  {
    if frames != [] {
      var before := frames[..|frames| - 1];
      OwnIsAll(before, j);
      assert OnlyReasoningAt(frames, j) <==>
             OnlyReasoningAt(before, j) &&
             (frames[|before|].body.SummaryTextDelta? ==> frames[|before|].body.outputIndex == j) by {
        forall k | 0 <= k < |before| ensures before[k] == frames[k] {}
      }
    }
  }

  /** Whether the open item holds all reasoning is told by the events. */
  ghost predicate Told(s: Encoder, events: seq<Event>) {
    && (forall k | 0 <= k < |s.frames| && s.frames[k].body.SummaryTextDelta? :: s.frames[k].body.outputIndex < s.nextIndex)
    && (s.reasoningOpen ==> s.reasoningIndex < s.nextIndex && (OnlyReasoningAt(s.frames, s.reasoningIndex) <==> !Divided(events)))
  }

  /** From `s` to `s'` no reasoning is written. */
  ghost predicate Speechless(s: Encoder, s': Encoder) {
    && s'.reasoningIndex == s.reasoningIndex && s.frames <= s'.frames
    && forall k | |s.frames| <= k < |s'.frames| :: !s'.frames[k].body.SummaryTextDelta?
  }

  lemma StepSpeechless(s: Encoder, e: Event)
    requires !s.finished && !Thinks(e)
    ensures Speechless(s, Step(s, e))
  {
    hide Step, CloseReasoning, EndsReasoning;
    StepQuiet(s, e);
    if !s.reasoningOpen {
      ClosedAlready(s);
    } else {
      Closes(s);
      var closed, s' := CloseReasoning(s), Step(s, e);
      if EndsReasoning(s, e) {
        forall k | |s.frames| <= k < |s'.frames| ensures !s'.frames[k].body.SummaryTextDelta? {
          assert k < |closed.frames| ==> s'.frames[k] == closed.frames[k];
          assert k < |closed.frames| ==> k == |s.frames| || k == |s.frames| + 1 || k == |s.frames| + 2;
        }
      }
    }
  }

  lemma OtherTold(s: Encoder, events: seq<Event>, e: Event)
    requires Told(s, events) && !s.finished && !e.IsTerminal() && !Thinks(e)
    ensures Told(Step(s, e), events + [e])
  {
    hide Step, Divided, Thinking, ReasoningOf, OpensItem, OnlyReasoningAt;
    StepSpeechless(s, e);
    StepOpens(s, e);
    SnocDivided(events, e);
    var s' := Step(s, e);
    NoReasoningAdded(s.frames, s'.frames, s.reasoningIndex);
    forall k | 0 <= k < |s'.frames| && s'.frames[k].body.SummaryTextDelta? ensures s'.frames[k].body.outputIndex < s'.nextIndex {
      assert s'.frames[k] == s.frames[k];
    }
  }

  lemma ThoughtIndexed(s: Encoder, e: Event)
    requires forall k | 0 <= k < |s.frames| && s.frames[k].body.SummaryTextDelta? :: s.frames[k].body.outputIndex < s.nextIndex
    requires !s.finished && Thinks(e) && (s.reasoningOpen ==> s.reasoningIndex < s.nextIndex)
    ensures var s' := Step(s, e);
            && s'.reasoningIndex < s'.nextIndex
            && forall k | 0 <= k < |s'.frames| && s'.frames[k].body.SummaryTextDelta? :: s'.frames[k].body.outputIndex < s'.nextIndex
  {
    hide Step, EnsureReasoning;
    ThoughtFrames(s, e);
    StepOpens(s, e);
    var ready, s' := EnsureReasoning(s), Step(s, e);
    assert forall k | |s.frames| <= k < |ready.frames| :: s'.frames[k] == ready.frames[k];
    forall k | 0 <= k < |s'.frames| && s'.frames[k].body.SummaryTextDelta? ensures s'.frames[k].body.outputIndex < s'.nextIndex {
      assert k < |s.frames| ==> s'.frames[k] == s.frames[k];
    }
  }

  lemma ThoughtTold(s: Encoder, events: seq<Event>, e: Event)
    requires Told(s, events) && Keeps(s) && Places(s, events) && s.reasoning == ReasoningOf(events)
    requires !s.finished && Thinks(e)
    ensures Told(Step(s, e), events + [e])
  {
    hide Step, Divided, Thinking, ReasoningOf, OpensItem, OnlyReasoningAt, EnsureReasoning, ItemsOpened, PlaceOf, Cumulative;
    ThoughtFrames(s, e);
    StepOpens(s, e);
    SnocDivided(events, e);
    var ready, s' := EnsureReasoning(s), Step(s, e);
    var j := ready.reasoningIndex;
    NoReasoningAdded(s.frames, ready.frames, j);
    if e.delta != "" {
      ReasoningAdded(ready.frames, s'.frames[|ready.frames|], j);
    } else {
      assert s'.frames == ready.frames;
    }
    if !s.reasoningOpen {
      FreshIndex(s, j);
      if Divided(events) {
        DividedSaid(events);
      }
    }
    ThoughtIndexed(s, e);
  }

  /** At an index not used yet, all reasoning is there when there is none. */
  lemma FreshIndex(s: Encoder, j: int)
    requires Keeps(s)
    requires forall k | 0 <= k < |s.frames| && s.frames[k].body.SummaryTextDelta? :: s.frames[k].body.outputIndex < j
    ensures OnlyReasoningAt(s.frames, j) <==> s.reasoning == ""
  {
    OwnIsAll(s.frames, j);
    NotThere(s.frames, j);
  }

  lemma {:induction false} NotThere(frames: seq<Frame>, j: int)
    requires forall k | 0 <= k < |frames| && frames[k].body.SummaryTextDelta? :: frames[k].body.outputIndex < j
    ensures OwnReasoning(frames, j) == ""
  {
    if frames != [] {
      forall k | 0 <= k < |frames| - 1 ensures frames[..|frames| - 1][k] == frames[k] {}
      NotThere(frames[..|frames| - 1], j);
    }
  }

  lemma DividedSaid(events: seq<Event>)
    requires Divided(events)
    ensures ReasoningOf(events) != ""
  {
    WhereReasoned(events);
    var p: nat, q: nat, r: nat :| Parts(events, p, q, r);
  }

  lemma {:induction false} RunTold(id: string, created: int, model: string, events: seq<Event>)
    requires NoTerminal(events)
    ensures Told(Encode(id, created, model, events), events)
  {
    hide Told, Keeps, Places, Step, ToolsMean, Live, Divided;
    if events == [] {
      InitTold(id, created, model);
    } else {
      var before, e := events[..|events| - 1], events[|events| - 1];
      assert events == before + [e];
      assert e in events && forall x <- before :: x in events;
      RunTold(id, created, model, before);
      RunDisciplined(id, created, model, before);
      var s := Encode(id, created, model, before);
      if Thinks(e) {
        ReasoningIsCumulative(id, created, model, before);
        RunPlaces(id, created, model, before);
        EncodeMeans(id, created, model, before);
        ThoughtTold(s, before, e);
      } else {
        OtherTold(s, before, e);
      }
    }
  }

  lemma InitTold(id: string, created: int, model: string)
    ensures Told(Init(id, created, model), [])
  {}

  /** Frame `k` of a run is written at its event `n`. */
  ghost predicate WrittenAt(id: string, created: int, model: string, events: seq<Event>, n: nat, k: nat) {
    n < |events|
    && |Encode(id, created, model, events[..n]).frames| <= k < |Encode(id, created, model, events[..n + 1]).frames|
  }

  lemma StepGrows(s: Encoder, e: Event)
    ensures s.frames <= Step(s, e).frames
  {
    hide Step;
    if s.finished {
      FinishedStays(s, e);
    } else if Thinks(e) {
      ThoughtFrames(s, e);
    } else {
      StepSpeechless(s, e);
    }
  }

  lemma FinishedStays(s: Encoder, e: Event)
    requires s.finished
    ensures Step(s, e) == s
  {}

  lemma {:induction false} RunGrows(id: string, created: int, model: string, events: seq<Event>, n: nat)
    requires n <= |events|
    ensures Encode(id, created, model, events[..n]).frames <= Encode(id, created, model, events).frames
  {
    hide Step;
    if n == |events| {
      assert events[..n] == events;
    } else {
      assert events[..|events| - 1][..n] == events[..n];
      RunGrows(id, created, model, events[..|events| - 1], n);
      StepGrows(Encode(id, created, model, events[..|events| - 1]), events[|events| - 1]);
    }
  }

  /** Every frame but the first is written at some event. */
  lemma {:induction false} WrittenSomewhere(id: string, created: int, model: string, events: seq<Event>, k: nat)
    requires 0 < k < |Encode(id, created, model, events).frames|
    ensures exists n: nat :: WrittenAt(id, created, model, events, n, k)
  {
    hide Step;
    if events != [] {
      var n: nat := |events| - 1;
      assert events[..n + 1] == events;
      if k < |Encode(id, created, model, events[..n]).frames| {
        WrittenSomewhere(id, created, model, events[..n], k);
        var m: nat :| WrittenAt(id, created, model, events[..n], m, k);
        assert events[..n][..m] == events[..m] && events[..n][..m + 1] == events[..m + 1];
        assert WrittenAt(id, created, model, events, m, k);
      } else {
        assert WrittenAt(id, created, model, events, n, k);
      }
    }
  }

  lemma ThoughtCloses(s: Encoder, e: Event, k: nat)
    requires !s.finished && Thinks(e) && |s.frames| <= k < |Step(s, e).frames|
    ensures !ClosesReasoning(Step(s, e).frames[k].body)
  {
    hide Step, EnsureReasoning;
    ThoughtFrames(s, e);
    var ready := EnsureReasoning(s);
    assert k < |ready.frames| ==> Step(s, e).frames[k] == ready.frames[k];
  }

  /** The closing frame of a step, if there is one: the third. */
  lemma ClosingFrame(s: Encoder, e: Event, k: nat)
    requires !s.finished && |s.frames| <= k < |Step(s, e).frames|
    requires ClosesReasoning(Step(s, e).frames[k].body)
    ensures s.reasoningOpen && EndsReasoning(s, e) && Step(s, e).frames[k].body.outputIndex == s.reasoningIndex
    ensures s.frames <= Step(s, e).frames
    ensures forall l | |s.frames| <= l < k :: !Step(s, e).frames[l].body.SummaryTextDelta?
  {
    hide Step, CloseReasoning, EndsReasoning;
    var s' := Step(s, e);
    if Thinks(e) {
      ThoughtCloses(s, e, k);
    } else {
      StepQuiet(s, e);
      StepSpeechless(s, e);
      if s.reasoningOpen {
        Closes(s);
        var closed := CloseReasoning(s);
        assert EndsReasoning(s, e) && k < |closed.frames| ==> s'.frames[k] == closed.frames[k];
      } else {
        ClosedAlready(s);
      }
    }
  }

  /** A finished reasoning item, written at event `n`, says what its own deltas said
      exactly when the events before did not divide the reasoning: no first words and no
      first mention of a call between one piece of it and a later one. */
  lemma ReasoningIsOwnExactly(id: string, created: int, model: string, events: seq<Event>, n: nat, k: nat)
    requires WrittenAt(id, created, model, events, n, k)
    requires ClosesReasoning(Encode(id, created, model, events[..n + 1]).frames[k].body)
    ensures var frames := Encode(id, created, model, events).frames;
            && k < |frames| && ClosesReasoning(frames[k].body)
            && (frames[k].body.item.summary == [SummaryText(OwnReasoning(frames[..k], frames[k].body.outputIndex))]
                <==> !Divided(events[..n]))
    ensures Thinking(events[..n]) && (events[n].ResponseDone? || Interrupts(events[..n], events[n]))
  {
    hide Step, Divided, Thinking, Live, Disciplined, ToolsMean, OnlyReasoningAt, ClosesReasoning;
    var before, s := events[..n], Encode(id, created, model, events[..n]);
    assert events[..n + 1] == before + [events[n]];
    EncodeSnoc(id, created, model, before, events[n]);
    var s', frames := Step(s, events[n]), Encode(id, created, model, events).frames;
    RunGrows(id, created, model, events, n + 1);
    RunDisciplined(id, created, model, before);
    if s.finished {
      FinishedStays(s, events[n]);
    }
    ClosingFrame(s, events[n], k);
    assert s'.frames[k] == frames[k] && s'.frames[..k] == frames[..k];
    OwnExactly(id, created, model, events, k);
    RunTold(id, created, model, before);
    RunPlaces(id, created, model, before);
    EncodeMeans(id, created, model, before);
    LiveApart(s);
    OpensInterrupts(s, before, events[n]);
    NoReasoningAdded(s.frames, frames[..k], s.reasoningIndex);
  }

  /** The same, told by the frames: no other reasoning item got a delta before it. */
  lemma OwnExactly(id: string, created: int, model: string, events: seq<Event>, k: nat)
    requires var frames := Encode(id, created, model, events).frames;
             k < |frames| && ClosesReasoning(frames[k].body)
    ensures var frames := Encode(id, created, model, events).frames;
            var j := frames[k].body.outputIndex;
            frames[k].body.item.summary == [SummaryText(OwnReasoning(frames[..k], j))] <==> OnlyReasoningAt(frames[..k], j)
  {
    hide Encode, OnlyReasoningAt;
    ReasoningIsCumulative(id, created, model, events);
    var frames := Encode(id, created, model, events).frames;
    OwnIsAll(frames[..k], frames[k].body.outputIndex);
  }
}
