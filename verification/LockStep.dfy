/** The two accumulators of a transcoded stream: the tracker of the reader and the tool
    states of the Responses encoder it feeds (internal/stream_convert.go:267-377 and
    1446-1535, driven as in internal/canonical_proxy.go:490-503). */
module LockStep {
  import opened Canonical
  import opened ToolTracker
  import opened ResponsesFrames
  import opened ResponsesEncoderSpec
  import opened ResponsesGrammar
  import opened ResponsesMeaning
  import RT = ResponsesRoundTrip
  import ChatReader
  import opened Gatherings
  import opened ChatStream

  /** Whatever reader a stream comes from, as long as it goes on: the tracker and the
      encoder have the same calls, done at the same time, and hold the same arguments for
      every call not done. */
  lemma InLockStep(t: Tracker, events: seq<Event>, id: string, created: int, model: string)
    requires Tracks(t, events) && NoTerminal(events)
    ensures var s := Encode(id, created, model, events);
            && s.tools.Keys == t.byIndex.Keys
            && forall i | i in t.byIndex ::
                 && s.tools[i].done == t.byIndex[i].done
                 && (!t.byIndex[i].done ==> s.tools[i].arguments == t.byIndex[i].arguments)
  {
    hide Encode, SpeechMeans, CallAt, OnceEach, ToolOrder, Started;
    EncodeMeans(id, created, model, events);
    var s := Encode(id, created, model, events);
    forall i ensures i in s.tools <==> i in t.byIndex {
      CallTracked(t, events, i);
    }
    forall i | i in t.byIndex
      ensures s.tools[i].done == t.byIndex[i].done && (!t.byIndex[i].done ==> s.tools[i].arguments == t.byIndex[i].arguments)
    {
      CallTracked(t, events, i);
      assert CallAt(events, i) == CallOf(s.tools[i], s.output);
    }
  }

  /** The call a finished function_call item stands for. */
  predicate ItemIs(item: Item, call: Call) {
    item.kind == FunctionCall && call == Closed(item.callID, item.name, item.arguments)
  }

  /** Some item of the terminal frame stands for this call. */
  ghost predicate Delivered(frames: seq<Frame>, call: Call) {
    && frames != []
    && var last := frames[|frames| - 1].body;
    && (last.Completed? || last.Incomplete?)
    && exists j :: 0 <= j < |last.response.output| && ItemIs(last.response.output[j], call)
  }

  lemma TerminalDelivers(closed: Encoder, status: string, reason: string, tool: EncoderTool, call: Call)
    requires forall j | 0 <= j < closed.nextIndex :: j in closed.output
    requires 0 <= tool.outputIndex < closed.nextIndex && tool.done && RT.IsCallAt(closed, tool.outputIndex)
    requires CallOf(tool, closed.output).Close() == call
    ensures var resp := TerminalResponse(closed, status, reason);
            Delivered(Emit(closed.(finished := true), if status == "incomplete" then Incomplete(resp) else Completed(resp)).frames, call)
  {
    SortedOutputAll(closed.output, closed.nextIndex);
    var resp := TerminalResponse(closed, status, reason);
    assert ItemIs(resp.output[tool.outputIndex], call);
  }

  /** A finished encoder delivers every call of its stream, closed. */
  lemma FinishDelivers(s: Encoder, body: seq<Event>, status: string, reason: string, usage: Usage, i: int)
    requires Live(s) && Means(s, body) && !CallAt(body, i).Unseen?
    ensures Delivered(Finish(s, status, reason, usage, SortedKeys(s.tools.Keys)).frames, CallAt(body, i).Close())
  {
    hide CallAt, SpeechMeans, CloseAll, Live, PhaseAt, Emit, TerminalResponse, Delivered, SortedKeys, CallOf;
    var counted := s.(usage := if usage.IsZero() then s.usage else usage);
    var status' := ResponseStatus(status, reason, if s.textRefusal then s.text else "");
    var indexes := SortedKeys(s.tools.Keys);
    Recounted(s, counted);
    LiveRuns(s);
    CloseAllEndsAll(counted, status', indexes);
    RT.CloseAllMeans(counted, status', indexes);
    RT.CloseAllDone(counted, status', indexes);
    var closed := CloseAll(counted, status', indexes);
    assert i in s.tools && CallAt(body, i) == CallOf(s.tools[i], s.output);
    TerminalDelivers(closed, status', reason, closed.tools[i], CallAt(body, i).Close());
  }

  lemma LiveRuns(s: Encoder)
    requires Live(s)
    ensures !s.finished
  {}

  /** A call the stream mentions is one the tracker has. */
  lemma CallTracked(t: Tracker, events: seq<Event>, i: int)
    requires Tracks(t, events)
    ensures if i in t.byIndex then Agrees(t.byIndex[i], CallAt(events, i)) else CallAt(events, i).Unseen?
  {
    ToolOrderIsSeen(events);
    OrderMatchesMap(t, events);
  }

  /** A Chat stream read with success, written to a Responses client: the encoder finishes,
      its frames are complete, and every call is delivered with the first id and name and exactly
      the arguments the upstream sent for it up to the first finish reason. */
  lemma ChatToResponses(lines: seq<ChatReader.Line>, scanError: bool, id: string, created: int, model: string, i: int)
    requires ChatReader.Succeeds(ChatReader.Read(lines), scanError)
    ensures var r := ChatReader.Close(ChatReader.Read(lines));
            var s := Encode(id, created, model, r.events);
            var final := Finish(s, "", "stop", ChatReader.Read(lines).usage, SortedKeys(s.tools.Keys));
            && final.finished && Disciplined(final.frames) && Complete(final.frames)
            && var g := HearCall(lines, i).End("");
               g.NotSeen? || Delivered(final.frames, Closed(g.id, g.name, g.text))
  {
    hide CallAt, HearCall, Hear, ChatReader.Read, ChatReader.Close, Encode, Means, Live, Disciplined, Complete, Finish, Delivered, Says;
    ChatStreamOnce(lines);
    var events := ChatReader.Close(ChatReader.Read(lines)).events;
    var usage := ChatReader.Read(lines).usage;
    assert NoError(events) by { SuccessHasNoError(lines, scanError); }
    var g := HearCall(lines, i).End("");
    var s := Encode(id, created, model, events);
    if Hear(lines).end.None? {
      PlainRun(events);
      RunLive(id, created, model, events);
      EncodeMeans(id, created, model, events);
      FinishCompletes(s, "", "stop", usage, SortedKeys(s.tools.Keys));
      if !g.NotSeen? {
        FinishDelivers(s, events, "", "stop", usage, i);
      }
    } else {
      var body, end := events[..|events| - 1], events[|events| - 1];
      assert events == body + [end];
      PlainRun(body);
      RunLive(id, created, model, body);
      EncodeMeans(id, created, model, body);
      EncodeSnoc(id, created, model, body, end);
      var before := Encode(id, created, model, body);
      EndingRun(before, end, usage);
      FinishCompletes(before, end.status, end.finishReason, before.usage, SortedKeys(before.tools.Keys));
      SnocCall(body, end, i);
      if !g.NotSeen? {
        FinishDelivers(before, body, end.status, end.finishReason, before.usage, i);
      }
    }
  }

  predicate NoError(events: seq<Event>) {
    forall p | 0 <= p < |events| :: !events[p].StreamError?
  }

  lemma SuccessHasNoError(lines: seq<ChatReader.Line>, scanError: bool)
    requires ChatReader.Succeeds(ChatReader.Read(lines), scanError)
    ensures NoError(ChatReader.Close(ChatReader.Read(lines)).events)
  {
    hide ChatReader.Read, ChatReader.Close, Hear, HearCall, CallAt, OnceEach;
    ChatStreamOnce(lines);
    SucceedsIff(lines, scanError);
    QuietHearing(lines);
    QuietEvents(ChatReader.Close(ChatReader.Read(lines)).events);
  }

  predicate Errorless(notices: seq<Event>) {
    forall e <- notices :: !e.StreamError?
  }

  lemma QuietEvents(events: seq<Event>)
    requires Errorless(Notices(events))
    ensures NoError(events)
  {
    forall p: nat | p < |events| && events[p].StreamError? ensures false {
      ErrorNoticed(events, p);
    }
  }

  lemma {:induction false} ErrorNoticed(events: seq<Event>, p: nat)
    requires p < |events| && events[p].StreamError?
    ensures events[p] in Notices(events)
  {
    if p < |events| - 1 {
      ErrorNoticed(events[..|events| - 1], p);
    }
  }

  lemma {:induction false} QuietHearing(lines: seq<ChatReader.Line>)
    ensures Stop(lines).None? || Stop(lines) == Some(ChatReader.DoneLine) ==> Errorless(Hear(lines).said.notices)
  {
    hide HearChoices;
    if lines != [] {
      var before, line := lines[..|lines| - 1], lines[|lines| - 1];
      QuietHearing(before);
      StopIsSome(before);
      StopIsSome(lines);
      if line.ChunkLine? && AllChunks(before) {
        var h := Hear(before);
        var opened' := if h.said.notices != [] then h
                       else h.(said := h.said.(notices := [ResponseStart(line.chunk.id, line.chunk.created, line.chunk.model)]));
        QuietChoices(opened', line.chunk.choices);
      }
    }
  }

  lemma {:induction false} QuietChoices(h: Heard, choices: seq<ChatReader.Choice>)
    requires Errorless(h.said.notices)
    ensures Errorless(HearChoices(h, choices).said.notices)
  {
    if choices != [] {
      QuietChoices(h, choices[..|choices| - 1]);
    }
  }

  lemma PlainRun(events: seq<Event>)
    requires NoEnd(events) && NoError(events)
    ensures NoTerminal(events)
  {}

  /** A finish by the stream itself makes the driver's finish do nothing. */
  lemma EndingRun(s: Encoder, end: Event, usage: Usage)
    requires Live(s) && end.ResponseDone?
    ensures var s' := Step(s, end);
            && s' == Finish(s, end.status, end.finishReason, s.usage, SortedKeys(s.tools.Keys)) && s'.finished
            && Finish(s', "", "stop", usage, SortedKeys(s'.tools.Keys)) == s'
  {
    hide CloseAll, Phases, PhaseAt;
  }
}
