/** The discipline of a Responses stream, told from its frames alone, and the proof
    that every run of the encoder keeps it: internal/stream_convert.go:85-499. */
module ResponsesGrammar {
  import opened Canonical
  import opened ResponsesFrames
  import opened ResponsesEncoderSpec

  // ----- The life of one output index -----

  datatype Phase =
    | Absent
    | MessageAdded(itemID: string)
    | MessageOpen(itemID: string, refusal: bool, said: string)
    | MessageSaid(itemID: string, refusal: bool, said: string)
    | MessageParted(itemID: string, refusal: bool, said: string)
    | ReasoningAdded(itemID: string)
    | ReasoningOpen(itemID: string)
    | ReasoningSaid(itemID: string, text: string)
    | ReasoningParted(itemID: string, text: string)
    | CallOpen(itemID: string, fragments: string)
    | CallArgued(itemID: string, name: string, arguments: string)
    | Ended(item: Item)
    | Broken

  predicate HasIndex(body: Body) {
    body.ItemAdded? || body.ContentPartAdded? || body.SummaryPartAdded? || body.OutputTextDelta? ||
    body.RefusalTextDelta? || body.SummaryTextDelta? || body.ReasoningTextDelta? || body.ArgumentsDelta? ||
    body.OutputTextDone? || body.RefusalTextDone? || body.ContentPartDone? || body.SummaryTextDone? ||
    body.SummaryPartDone? || body.ArgumentsDone? || body.ItemDone?
  }

  /** One frame about this index. A message is added, given a part, said delta by
      delta, and closed with exactly what was said; reasoning and calls likewise, each
      by its own frames only. Anything out of turn breaks the index for good. */
  function PhaseStep(p: Phase, body: Body): Phase {
    match (p, body)
    case (Absent, ItemAdded(_, item, _)) =>
      if item.status != "in_progress" then Broken else
      (match item.kind
       case Message => if item.content == [] && item.role == "assistant" then MessageAdded(item.id) else Broken
       case Reasoning => if item.summary == [] then ReasoningAdded(item.id) else Broken
       case FunctionCall => if item.arguments == "" then CallOpen(item.id, "") else Broken
       case OtherItem => Broken)
    case (MessageAdded(id), ContentPartAdded(itemID, _, part)) =>
      if itemID == id && (part == OutputText("") || part == Refusal(""))
      then MessageOpen(id, part.Refusal?, "") else Broken
    case (MessageOpen(id, refusal, said), OutputTextDelta(itemID, _, delta)) =>
      if itemID == id && !refusal && delta != "" then MessageOpen(id, refusal, said + delta) else Broken
    case (MessageOpen(id, refusal, said), RefusalTextDelta(itemID, _, delta)) =>
      if itemID == id && refusal && delta != "" then MessageOpen(id, refusal, said + delta) else Broken
    case (MessageOpen(id, refusal, said), OutputTextDone(itemID, _, text)) =>
      if itemID == id && !refusal && text == said then MessageSaid(id, refusal, said) else Broken
    case (MessageOpen(id, refusal, said), RefusalTextDone(itemID, _, text)) =>
      if itemID == id && refusal && text == said then MessageSaid(id, refusal, said) else Broken
    case (MessageSaid(id, refusal, said), ContentPartDone(itemID, _, part)) =>
      if itemID == id && part == (if refusal then Refusal(said) else OutputText(said))
      then MessageParted(id, refusal, said) else Broken
    case (MessageParted(id, refusal, said), ItemDone(_, item, _)) =>
      if item.kind == Message && item.id == id && item.role == "assistant" &&
         item.content == [if refusal then Refusal(said) else OutputText(said)]
      then Ended(item) else Broken
    case (ReasoningAdded(id), SummaryPartAdded(itemID, _, part)) =>
      if itemID == id && part == SummaryText("") then ReasoningOpen(id) else Broken
    case (ReasoningOpen(id), SummaryTextDelta(itemID, _, delta)) =>
      if itemID == id && delta != "" then ReasoningOpen(id) else Broken
    case (ReasoningOpen(id), SummaryTextDone(itemID, _, text)) =>
      if itemID == id then ReasoningSaid(id, text) else Broken
    case (ReasoningSaid(id, text), SummaryPartDone(itemID, _, part)) =>
      if itemID == id && part == SummaryText(text) then ReasoningParted(id, text) else Broken
    case (ReasoningParted(id, text), ItemDone(_, item, _)) =>
      if item.kind == Reasoning && item.id == id && item.status == "completed" && item.summary == [SummaryText(text)] then Ended(item) else Broken
    case (CallOpen(id, fragments), ArgumentsDelta(itemID, _, delta)) =>
      if itemID == id && delta != "" then CallOpen(id, fragments + delta) else Broken
    case (CallOpen(id, fragments), ArgumentsDone(itemID, _, name, arguments)) =>
      if itemID == id then CallArgued(id, name, arguments) else Broken
    case (CallArgued(id, name, arguments), ItemDone(_, item, _)) =>
      if item.kind == FunctionCall && item.id == id && item.status == "completed" && item.name == name && item.arguments == arguments
      then Ended(item) else Broken
    case _ => Broken
  }

  function PhaseAt(frames: seq<Frame>, j: int): Phase {
    if frames == [] then Absent else
      var body := frames[|frames| - 1].body;
      var p := PhaseAt(frames[..|frames| - 1], j);
      if HasIndex(body) && body.outputIndex == j then PhaseStep(p, body) else p
  }

  /** The phases of all indices, as one value. */
  ghost function Life(frames: seq<Frame>): (ph: int -> Phase)
    ensures forall j :: ph(j) == PhaseAt(frames, j)
  {
    j => PhaseAt(frames, j)
  }

  /** `ph'` is `ph` with index `t` moved to `p`. */
  ghost predicate Moves(ph: int -> Phase, ph': int -> Phase, t: int, p: Phase) {
    ph'(t) == p && forall j | j != t :: ph'(j) == ph(j)
  }

  predicate IsEnd(body: Body) {
    body.Completed? || body.Incomplete? || body.ErrorFrame?
  }

  /** Frames are numbered 0, 1, 2, ... and so far none ends the stream. */
  ghost predicate Numbered(frames: seq<Frame>, sequence: int) {
    && sequence == |frames|
    && (forall k | 0 <= k < |frames| :: frames[k].sequence == k)
    && (forall k | 0 <= k < |frames| :: !IsEnd(frames[k].body))
  }

  /** `s'` extends the frames of `s` in order, by frames about index `t` that take it
      to phase `p`. */
  ghost predicate Burst(s: Encoder, s': Encoder, t: int, p: Phase) {
    && Moves(Life(s.frames), Life(s'.frames), t, p)
    && (Numbered(s.frames, s.sequence) ==> Numbered(s'.frames, s'.sequence))
  }

  lemma Silent(s: Encoder, b: Body)
    requires !HasIndex(b)
    ensures forall j :: Life(Emit(s, b).frames)(j) == Life(s.frames)(j)
    ensures Numbered(s.frames, s.sequence) && !IsEnd(b) ==> Numbered(Emit(s, b).frames, Emit(s, b).sequence)
  {
    assert Emit(s, b).frames[..|s.frames|] == s.frames;
  }

  lemma OneFrame(s: Encoder, b: Body, t: int, p: Phase)
    requires HasIndex(b) && b.outputIndex == t && PhaseStep(PhaseAt(s.frames, t), b) == p
    ensures Burst(s, Emit(s, b), t, p)
  {
    assert Emit(s, b).frames[..|s.frames|] == s.frames;
  }

  lemma TwoFrames(s: Encoder, a: Body, b: Body, t: int, p: Phase)
    requires HasIndex(a) && HasIndex(b) && a.outputIndex == b.outputIndex == t
    requires PhaseStep(PhaseStep(PhaseAt(s.frames, t), a), b) == p
    ensures Burst(s, Emit(Emit(s, a), b), t, p)
  {
    OneFrame(s, a, t, PhaseStep(PhaseAt(s.frames, t), a));
    OneFrame(Emit(s, a), b, t, p);
  }

  lemma ThreeFrames(s: Encoder, a: Body, b: Body, c: Body, t: int, p: Phase)
    requires HasIndex(a) && HasIndex(b) && HasIndex(c) && a.outputIndex == b.outputIndex == c.outputIndex == t
    requires PhaseStep(PhaseStep(PhaseStep(PhaseAt(s.frames, t), a), b), c) == p
    ensures Burst(s, Emit(Emit(Emit(s, a), b), c), t, p)
  {
    hide PhaseStep, HasIndex, Numbered;
    TwoFrames(s, a, b, t, PhaseStep(PhaseStep(PhaseAt(s.frames, t), a), b));
    OneFrame(Emit(Emit(s, a), b), c, t, p);
  }

  // ----- What every live state keeps -----

  ghost predicate Owned(s: Encoder, j: int) {
    || j in s.output
    || (s.textOpen && j == s.textIndex)
    || (s.reasoningOpen && j == s.reasoningIndex)
    || exists i :: i in s.tools && s.tools[i].outputIndex == j
  }

  /** Every index is in the phase the state says it is in. The phases of finished
      items, of the open text, of open reasoning and of open calls differ, so no index
      has two owners. */
  ghost predicate Phases(s: Encoder, ph: int -> Phase) {
    && 0 <= s.nextIndex
    && (forall j | !(0 <= j < s.nextIndex) :: ph(j) == Absent)
    && (forall j | j in s.output :: ph(j) == Ended(s.output[j]))
    && (forall j | 0 <= j < s.nextIndex :: Owned(s, j))
    && (s.reasoningOpen ==> ph(s.reasoningIndex) == ReasoningOpen(s.id + "_reasoning"))
    && (s.textOpen ==> ph(s.textIndex) == MessageOpen(s.id + "_msg", s.textRefusal, s.text))
    && (forall i | i in s.tools :: ToolPhase(s, s.tools[i], ph))
    && (forall i, k | i in s.tools && k in s.tools && i != k :: s.tools[i].outputIndex != s.tools[k].outputIndex)
  }

  ghost predicate ToolPhase(s: Encoder, tool: EncoderTool, ph: int -> Phase) {
    if tool.done then tool.outputIndex in s.output && s.output[tool.outputIndex].kind == FunctionCall
    else ph(tool.outputIndex) == CallOpen(tool.itemID, tool.arguments)
  }

  ghost predicate Sound(s: Encoder) {
    !s.finished && Numbered(s.frames, s.sequence) && Phases(s, Life(s.frames))
  }

  /** What holds between two events. */
  ghost predicate Live(s: Encoder) {
    && Sound(s)
    && (s.text == "" <==> !s.textOpen) && (s.textRefusal ==> s.textOpen)
  }

  lemma InitLive(id: string, created: int, model: string)
    ensures Live(Init(id, created, model))
  {
    hide Phases, PhaseAt;
    var blank := Encoder(id, created, model, 0, 0, "", -1, false, false, "", "", -1, false, map[], map[], NO_USAGE, false, []);
    Silent(blank, Created(Response(id, created, model, "in_progress", None, [], NO_USAGE)));
    assert forall j :: PhaseAt([], j) == Absent by { NoFrames(); }
    NothingOwned(Init(id, created, model), Life(Init(id, created, model).frames));
  }

  lemma NoFrames()
    ensures forall j :: PhaseAt([], j) == Absent
  {}

  lemma NothingOwned(s: Encoder, ph: int -> Phase)
    requires s.nextIndex == 0 && !s.textOpen && !s.reasoningOpen && s.tools == map[] && s.output == map[]
    requires forall j :: ph(j) == Absent
    ensures Phases(s, ph)
  {}

  // ----- One operation at a time: its frames, its effect on the phases, both -----

  lemma ReasoningCloses(s: Encoder) returns (item: Item)
    requires s.reasoningOpen && PhaseAt(s.frames, s.reasoningIndex) == ReasoningOpen(s.id + "_reasoning")
    ensures item == ReasoningItem(s.id + "_reasoning", "completed", [SummaryText(s.reasoning)], s.reasoningSig)
    ensures Burst(s, CloseReasoning(s), s.reasoningIndex, Ended(item))
  {
    var t, itemID, part := s.reasoningIndex, s.id + "_reasoning", SummaryText(s.reasoning);
    item := ReasoningItem(itemID, "completed", [part], s.reasoningSig);
    ThreeFrames(s, SummaryTextDone(itemID, t, s.reasoning), SummaryPartDone(itemID, t, part), ItemDone(t, item), t, Ended(item));
  }

  lemma ReasoningClosed(s: Encoder, ph: int -> Phase, s': Encoder, ph': int -> Phase, item: Item)
    requires Phases(s, ph) && s.reasoningOpen && Moves(ph, ph', s.reasoningIndex, Ended(item))
    requires s' == s.(output := s.output[s.reasoningIndex := item], reasoningOpen := false,
                      frames := s'.frames, sequence := s'.sequence)
    ensures Phases(s', ph')
  {
    forall j | 0 <= j < s'.nextIndex ensures Owned(s', j) {
      assert Owned(s, j);
    }
  }

  lemma CloseReasoningLive(s: Encoder)
    requires Live(s)
    ensures Live(CloseReasoning(s)) && !CloseReasoning(s).reasoningOpen
  {
    if s.reasoningOpen {
      var item := ReasoningCloses(s);
      ReasoningClosed(s, Life(s.frames), CloseReasoning(s), Life(CloseReasoning(s).frames), item);
    }
  }

  lemma TextOpens(s: Encoder, refusal: bool)
    requires !s.textOpen && !s.reasoningOpen && PhaseAt(s.frames, s.nextIndex) == Absent
    ensures Burst(s, EnsureText(s, refusal), s.nextIndex, MessageOpen(s.id + "_msg", refusal, ""))
  {
    var t := s.nextIndex;
    TwoFrames(s, ItemAdded(t, MessageItem(s.id + "_msg", "in_progress", [])),
              ContentPartAdded(s.id + "_msg", t, if refusal then Refusal("") else OutputText("")), t,
              MessageOpen(s.id + "_msg", refusal, ""));
  }

  lemma TextOpened(s: Encoder, ph: int -> Phase, s': Encoder, ph': int -> Phase, refusal: bool)
    requires Phases(s, ph) && !s.textOpen && s.text == ""
    requires Moves(ph, ph', s.nextIndex, MessageOpen(s.id + "_msg", refusal, ""))
    requires s' == s.(textIndex := s.nextIndex, nextIndex := s.nextIndex + 1, textOpen := true, textRefusal := refusal,
                      frames := s'.frames, sequence := s'.sequence)
    ensures Phases(s', ph')
  {
    forall j | 0 <= j < s'.nextIndex ensures Owned(s', j) {
      assert j == s.nextIndex || Owned(s, j);
    }
  }

  lemma TextSays(s: Encoder, delta: string)
    requires s.textOpen && PhaseAt(s.frames, s.textIndex) == MessageOpen(s.id + "_msg", s.textRefusal, s.text) && delta != ""
    ensures Burst(s, WriteTextDelta(s, delta, s.textRefusal), s.textIndex, MessageOpen(s.id + "_msg", s.textRefusal, s.text + delta))
  {
    OneFrame(s, if s.textRefusal then RefusalTextDelta(s.id + "_msg", s.textIndex, delta)
                else OutputTextDelta(s.id + "_msg", s.textIndex, delta), s.textIndex,
             MessageOpen(s.id + "_msg", s.textRefusal, s.text + delta));
  }

  lemma TextSaid(s: Encoder, ph: int -> Phase, s': Encoder, ph': int -> Phase, delta: string)
    requires Phases(s, ph) && s.textOpen && Moves(ph, ph', s.textIndex, MessageOpen(s.id + "_msg", s.textRefusal, s.text + delta))
    requires s' == s.(text := s.text + delta, frames := s'.frames, sequence := s'.sequence)
    ensures Phases(s', ph')
  {
    forall j | 0 <= j < s'.nextIndex ensures Owned(s', j) {
      assert Owned(s, j);
    }
  }

  lemma EnsureTextSound(s: Encoder, refusal: bool)
    requires Live(s)
    ensures Sound(EnsureText(s, refusal)) && EnsureText(s, refusal).textOpen
  {
    if !s.textOpen {
      CloseReasoningLive(s);
      var closed := CloseReasoning(s);
      TextOpens(closed, refusal);
      TextOpened(closed, Life(closed.frames), EnsureText(s, refusal), Life(EnsureText(s, refusal).frames), refusal);
    }
  }

  lemma SayLive(s: Encoder, delta: string)
    requires Sound(s) && s.textOpen && delta != ""
    ensures Live(WriteTextDelta(s, delta, s.textRefusal))
  {
    TextSays(s, delta);
    var s' := WriteTextDelta(s, delta, s.textRefusal);
    TextSaid(s, Life(s.frames), s', Life(s'.frames), delta);
  }

  lemma WriteTextLive(s: Encoder, delta: string, refusal: bool)
    requires Live(s)
    ensures Live(WriteTextDelta(s, delta, refusal))
  {
    if delta != "" {
      EnsureTextSound(s, refusal);
      SayLive(EnsureText(s, refusal), delta);
    }
  }

  lemma ReasoningOpens(s: Encoder)
    requires !s.reasoningOpen && PhaseAt(s.frames, s.nextIndex) == Absent
    ensures Burst(s, EnsureReasoning(s), s.nextIndex, ReasoningOpen(s.id + "_reasoning"))
  {
    var t := s.nextIndex;
    TwoFrames(s, ItemAdded(t, ReasoningItem(s.id + "_reasoning", "in_progress", [], "")),
              SummaryPartAdded(s.id + "_reasoning", t, SummaryText("")), t, ReasoningOpen(s.id + "_reasoning"));
  }

  lemma ReasoningOpened(s: Encoder, ph: int -> Phase, s': Encoder, ph': int -> Phase)
    requires Phases(s, ph) && !s.reasoningOpen && Moves(ph, ph', s.nextIndex, ReasoningOpen(s.id + "_reasoning"))
    requires s' == s.(reasoningIndex := s.nextIndex, nextIndex := s.nextIndex + 1, reasoningOpen := true,
                      frames := s'.frames, sequence := s'.sequence)
    ensures Phases(s', ph')
  {
    forall j | 0 <= j < s'.nextIndex ensures Owned(s', j) {
      assert j == s.nextIndex || Owned(s, j);
    }
  }

  /** Operations that leave every index as it is. */
  lemma Unmoved(s: Encoder, ph: int -> Phase, s': Encoder, ph': int -> Phase)
    requires Phases(s, ph) && forall j :: ph'(j) == ph(j)
    requires s' == s.(reasoning := s'.reasoning, reasoningSig := s'.reasoningSig, usage := s'.usage,
                      frames := s'.frames, sequence := s'.sequence)
    ensures Phases(s', ph')
  {
    forall j | 0 <= j < s'.nextIndex ensures Owned(s', j) {
      assert Owned(s, j);
    }
  }

  lemma ReasoningSays(s: Encoder, delta: string)
    requires s.reasoningOpen && PhaseAt(s.frames, s.reasoningIndex) == ReasoningOpen(s.id + "_reasoning") && delta != ""
    ensures Burst(s, Emit(s, SummaryTextDelta(s.id + "_reasoning", s.reasoningIndex, delta)),
                  s.reasoningIndex, ReasoningOpen(s.id + "_reasoning"))
  {
    OneFrame(s, SummaryTextDelta(s.id + "_reasoning", s.reasoningIndex, delta), s.reasoningIndex, ReasoningOpen(s.id + "_reasoning"));
  }

  lemma WriteReasoningLive(s: Encoder, delta: string, signature: string)
    requires Live(s)
    ensures Live(WriteReasoningDelta(s, delta, signature))
  {
    if !(delta == "" && signature == "") {
      var ready := EnsureReasoning(s);
      if !s.reasoningOpen {
        ReasoningOpens(s);
        ReasoningOpened(s, Life(s.frames), ready, Life(ready.frames));
      }
      if delta != "" {
        ReasoningSays(ready, delta);
      }
      var s' := WriteReasoningDelta(s, delta, signature);
      Unmoved(ready, Life(ready.frames), s', Life(s'.frames));
    }
  }

  lemma ToolOpens(s: Encoder, index: int, callID: string, name: string, signature: string)
    requires index !in s.tools && !s.reasoningOpen && PhaseAt(s.frames, s.nextIndex) == Absent
    ensures Burst(s, WriteToolStart(s, index, callID, name, signature), s.nextIndex, CallOpen(ToolItemID(s.id, index), ""))
  {
    OneFrame(s, ItemAdded(s.nextIndex, CallItem(ToolItemID(s.id, index), "in_progress", callID, name, "")), s.nextIndex,
             CallOpen(ToolItemID(s.id, index), ""));
  }

  lemma ToolOpened(s: Encoder, ph: int -> Phase, s': Encoder, ph': int -> Phase, index: int, tool: EncoderTool)
    requires Phases(s, ph) && index !in s.tools && Moves(ph, ph', s.nextIndex, CallOpen(tool.itemID, ""))
    requires tool.outputIndex == s.nextIndex && !tool.done && tool.arguments == ""
    requires s' == s.(nextIndex := s.nextIndex + 1, tools := s.tools[index := tool],
                      frames := s'.frames, sequence := s'.sequence)
    ensures Phases(s', ph')
  {
    forall j | 0 <= j < s'.nextIndex ensures Owned(s', j) {
      if j == s.nextIndex {
        assert s'.tools[index].outputIndex == j;
      } else {
        assert Owned(s, j);
        OwnerKept(s, s', j);
      }
    }
    forall i | i in s.tools ensures s.tools[i].outputIndex != s.nextIndex {
      assert ToolPhase(s, s.tools[i], ph);
    }
  }

  lemma OwnerKept(s: Encoder, s': Encoder, j: int)
    requires Owned(s, j)
    requires s'.output.Keys >= s.output.Keys
    requires s'.textOpen == s.textOpen && s'.textIndex == s.textIndex
    requires s'.reasoningOpen == s.reasoningOpen && s'.reasoningIndex == s.reasoningIndex
    requires forall i | i in s.tools :: i in s'.tools && s'.tools[i].outputIndex == s.tools[i].outputIndex
    ensures Owned(s', j)
  {
    if i :| i in s.tools && s.tools[i].outputIndex == j {
      assert s'.tools[i].outputIndex == j;
    }
  }

  /** A known tool learns its id, its name or a fragment; a done one only its id or name. */
  lemma ToolChanged(s: Encoder, ph: int -> Phase, s': Encoder, ph': int -> Phase, index: int, tool: EncoderTool)
    requires Phases(s, ph) && index in s.tools
    requires tool.outputIndex == s.tools[index].outputIndex && tool.done == s.tools[index].done
    requires Moves(ph, ph', tool.outputIndex, if tool.done then ph(tool.outputIndex) else CallOpen(tool.itemID, tool.arguments))
    requires s' == s.(tools := s.tools[index := tool], frames := s'.frames, sequence := s'.sequence)
    ensures Phases(s', ph')
  {
    assert ToolPhase(s, s.tools[index], ph);
    forall j | 0 <= j < s'.nextIndex ensures Owned(s', j) {
      assert Owned(s, j);
      OwnerKept(s, s', j);
    }
    forall i | i in s'.tools ensures ToolPhase(s', s'.tools[i], ph') {
      assert i in s.tools && ToolPhase(s, s.tools[i], ph);
    }
  }

  lemma ToolFinished(s: Encoder, ph: int -> Phase, s': Encoder, ph': int -> Phase, index: int, tool: EncoderTool, item: Item)
    requires Phases(s, ph) && index in s.tools && !s.tools[index].done
    requires tool.outputIndex == s.tools[index].outputIndex && tool.done && item.kind == FunctionCall
    requires Moves(ph, ph', tool.outputIndex, Ended(item))
    requires s' == s.(tools := s.tools[index := tool], output := s.output[tool.outputIndex := item],
                      frames := s'.frames, sequence := s'.sequence)
    ensures Phases(s', ph')
  {
    assert ToolPhase(s, s.tools[index], ph);
    forall j | 0 <= j < s'.nextIndex ensures Owned(s', j) {
      assert Owned(s, j);
      OwnerKept(s, s', j);
    }
    forall i | i in s'.tools ensures ToolPhase(s', s'.tools[i], ph') {
      assert i in s.tools && ToolPhase(s, s.tools[i], ph);
    }
  }

  lemma WriteToolStartLive(s: Encoder, index: int, callID: string, name: string, signature: string)
    requires Live(s)
    ensures Live(WriteToolStart(s, index, callID, name, signature))
  {
    hide PhaseAt, PhaseStep, Owned, Numbered;
    var s' := WriteToolStart(s, index, callID, name, signature);
    if index in s.tools {
      assert ToolPhase(s, s.tools[index], Life(s.frames));
      ToolChanged(s, Life(s.frames), s', Life(s'.frames), index, s'.tools[index]);
    } else {
      CloseReasoningLive(s);
      var closed := CloseReasoning(s);
      ToolOpens(closed, index, callID, name, signature);
      ToolOpened(closed, Life(closed.frames), s', Life(s'.frames), index, s'.tools[index]);
    }
  }

  lemma EnsureToolLive(s: Encoder, index: int, callID: string, name: string, signature: string)
    requires Live(s)
    ensures Live(EnsureTool(s, index, callID, name, signature))
  {
    if index !in s.tools {
      WriteToolStartLive(s, index, callID, name, signature);
    }
  }

  lemma ToolSays(s: Encoder, tool: EncoderTool, delta: string)
    requires PhaseAt(s.frames, tool.outputIndex) == CallOpen(tool.itemID, tool.arguments) && delta != ""
    ensures Burst(s, Emit(s, ArgumentsDelta(tool.itemID, tool.outputIndex, delta)), tool.outputIndex,
                  CallOpen(tool.itemID, tool.arguments + delta))
  {
    OneFrame(s, ArgumentsDelta(tool.itemID, tool.outputIndex, delta), tool.outputIndex, CallOpen(tool.itemID, tool.arguments + delta));
  }

  lemma WriteToolDeltaLive(s: Encoder, index: int, callID: string, name: string, delta: string)
    requires Live(s)
    ensures Live(WriteToolDelta(s, index, callID, name, delta))
  {
    hide PhaseAt, PhaseStep, Owned, Numbered;
    EnsureToolLive(s, index, callID, name, "");
    var ready := EnsureTool(s, index, callID, name, "");
    var tool := ready.tools[index];
    assert ToolPhase(ready, tool, Life(ready.frames));
    if !(tool.done || delta == "") {
      ToolSays(ready, tool, delta);
      var s' := WriteToolDelta(s, index, callID, name, delta);
      ToolChanged(ready, Life(ready.frames), s', Life(s'.frames), index, s'.tools[index]);
    }
  }

  lemma ToolCloses(s: Encoder, tool: EncoderTool, fragments: string, item: Item)
    requires PhaseAt(s.frames, tool.outputIndex) == CallOpen(tool.itemID, fragments)
    requires item == CallItem(tool.itemID, "completed", tool.id, tool.name, tool.arguments)
    ensures Burst(s, Emit(Emit(s, ArgumentsDone(tool.itemID, tool.outputIndex, tool.name, tool.arguments)),
                          ItemDone(tool.outputIndex, item)), tool.outputIndex, Ended(item))
  {
    TwoFrames(s, ArgumentsDone(tool.itemID, tool.outputIndex, tool.name, tool.arguments), ItemDone(tool.outputIndex, item),
              tool.outputIndex, Ended(item));
  }

  lemma WriteToolDoneLive(s: Encoder, index: int, callID: string, name: string, arguments: string, signature: string)
    requires Live(s)
    ensures Live(WriteToolDone(s, index, callID, name, arguments, signature))
  {
    hide PhaseAt, PhaseStep, Owned, Numbered;
    EnsureToolLive(s, index, callID, name, signature);
    FinishToolSound(EnsureTool(s, index, callID, name, signature), index, callID, name, arguments, signature);
  }

  lemma FinishToolSound(s: Encoder, index: int, callID: string, name: string, arguments: string, signature: string)
    requires Sound(s) && index in s.tools
    ensures Sound(WriteToolDone(s, index, callID, name, arguments, signature))
  {
    hide PhaseAt, PhaseStep, Owned, Numbered;
    assert ToolPhase(s, s.tools[index], Life(s.frames));
    if !s.tools[index].done {
      var s' := WriteToolDone(s, index, callID, name, arguments, signature);
      var tool := s'.tools[index];
      var item := s'.output[tool.outputIndex];
      ToolCloses(s, tool, s.tools[index].arguments, item);
      ToolFinished(s, Life(s.frames), s', Life(s'.frames), index, tool, item);
    }
  }

  // ----- Finishing -----

  /** `s` with its text item no longer counted as open: what finish leaves behind once
      the text item is written. Closing calls does not look at the text. */
  function Muted(s: Encoder): Encoder {
    s.(textOpen := false)
  }

  lemma {:induction false} MutedCloseTools(s: Encoder, indexes: seq<int>)
    ensures CloseTools(Muted(s), indexes) == Muted(CloseTools(s, indexes))
  {
    if indexes != [] {
      MutedCloseTools(s, indexes[..|indexes| - 1]);
    }
  }

  lemma TextCloses(s: Encoder, status: string) returns (item: Item)
    requires s.textOpen && PhaseAt(s.frames, s.textIndex) == MessageOpen(s.id + "_msg", s.textRefusal, s.text)
    ensures item == MessageItem(s.id + "_msg", status, [if s.textRefusal then Refusal(s.text) else OutputText(s.text)])
    ensures Burst(s, CloseText(s, status), s.textIndex, Ended(item))
  {
    hide PhaseAt, Numbered, Moves;
    var itemID, t := s.id + "_msg", s.textIndex;
    var part := if s.textRefusal then Refusal(s.text) else OutputText(s.text);
    item := MessageItem(itemID, status, [part]);
    ThreeFrames(s, if s.textRefusal then RefusalTextDone(itemID, t, s.text) else OutputTextDone(itemID, t, s.text),
                ContentPartDone(itemID, t, part), ItemDone(t, item), t, Ended(item));
  }

  lemma TextClosed(s: Encoder, ph: int -> Phase, s': Encoder, ph': int -> Phase, item: Item)
    requires Phases(s, ph) && s.textOpen && Moves(ph, ph', s.textIndex, Ended(item))
    requires s' == s.(output := s.output[s.textIndex := item], textOpen := false, frames := s'.frames, sequence := s'.sequence)
    ensures Phases(s', ph')
  {
    forall j | 0 <= j < s'.nextIndex ensures Owned(s', j) {
      assert Owned(s, j);
    }
  }

  lemma CloseTextSound(s: Encoder, status: string)
    requires Sound(s)
    ensures Sound(Muted(CloseText(s, status)))
  {
    var s' := CloseText(s, status);
    if s.textOpen {
      var item := TextCloses(s, status);
      TextClosed(s, Life(s.frames), Muted(s'), Life(s'.frames), item);
    } else {
      assert Muted(s') == s;
    }
  }

  lemma FinishToolKeeps(s: Encoder, index: int, callID: string, name: string, arguments: string, signature: string)
    requires index in s.tools
    ensures var s' := WriteToolDone(s, index, callID, name, arguments, signature);
            && s'.tools.Keys == s.tools.Keys && s'.tools[index].done
            && (forall i | i in s.tools && i != index :: s'.tools[i] == s.tools[i])
            && s'.reasoningOpen == s.reasoningOpen && s'.textOpen == s.textOpen
  {}

  lemma {:induction false} CloseToolsSound(s: Encoder, indexes: seq<int>)
    requires Sound(s)
    ensures var s' := CloseTools(s, indexes);
            && Sound(s') && s'.tools.Keys == s.tools.Keys
            && s'.reasoningOpen == s.reasoningOpen && s'.textOpen == s.textOpen
            && (forall i | i in indexes && i in s.tools :: s'.tools[i].done)
  {
    hide Sound, WriteToolDone;
    if indexes != [] {
      CloseToolsSound(s, indexes[..|indexes| - 1]);
      var before, i := CloseTools(s, indexes[..|indexes| - 1]), indexes[|indexes| - 1];
      if i in before.tools && !before.tools[i].done {
        var tool := before.tools[i];
        FinishToolSound(before, i, tool.id, tool.name, tool.arguments, tool.signature);
        FinishToolKeeps(before, i, tool.id, tool.name, tool.arguments, tool.signature);
      }
    }
  }

  /** With nothing left open, every reserved index is a finished item. */
  lemma NothingOpen(s: Encoder)
    requires Sound(s) && !s.textOpen && !s.reasoningOpen && forall i | i in s.tools :: s.tools[i].done
    ensures forall j | 0 <= j < s.nextIndex :: j in s.output
    ensures forall j | 0 <= j < s.nextIndex :: PhaseAt(s.frames, j) == Ended(s.output[j])
    ensures forall j | !(0 <= j < s.nextIndex) :: PhaseAt(s.frames, j) == Absent
  {
    forall j | 0 <= j < s.nextIndex ensures j in s.output {
      assert Owned(s, j);
      if i :| i in s.tools && s.tools[i].outputIndex == j {
        assert ToolPhase(s, s.tools[i], Life(s.frames));
      }
    }
    forall j | 0 <= j < s.nextIndex ensures PhaseAt(s.frames, j) == Ended(s.output[j]) {
      assert Life(s.frames)(j) == Ended(s.output[j]);
    }
    forall j | !(0 <= j < s.nextIndex) ensures PhaseAt(s.frames, j) == Absent {
      assert Life(s.frames)(j) == Absent;
    }
  }

  /** Every index reserved by `s` is a finished item. */
  ghost predicate AllEnded(s: Encoder) {
    && Numbered(s.frames, s.sequence) && 0 <= s.nextIndex
    && (forall j | 0 <= j < s.nextIndex :: j in s.output && PhaseAt(s.frames, j) == Ended(s.output[j]))
    && (forall j | !(0 <= j < s.nextIndex) :: PhaseAt(s.frames, j) == Absent)
  }

  lemma CloseAllEndsAll(s: Encoder, status: string, indexes: seq<int>)
    requires Live(s) && forall i | i in s.tools :: i in indexes
    ensures AllEnded(CloseAll(s, status, indexes))
  {
    CloseReasoningLive(s);
    var quiet := CloseReasoning(s);
    CloseTextSound(quiet, status);
    var said := CloseText(quiet, status);
    MutedCloseTools(said, indexes);
    CloseToolsSound(Muted(said), indexes);
    NothingOpen(CloseTools(Muted(said), indexes));
  }

  lemma {:induction false} SortedOutputAll(output: map<int, Item>, n: nat)
    requires forall j | 0 <= j < n :: j in output
    ensures |SortedOutput(output, n)| == n
    ensures forall j | 0 <= j < n :: SortedOutput(output, n)[j] == output[j]
  {
    if n > 0 {
      SortedOutputAll(output, n - 1);
    }
  }

  // ----- The whole run -----

  /** A stream, seen from outside: numbered without gap, ended by its last frame at
      most, and every output index goes through its life in turn. */
  ghost predicate Disciplined(frames: seq<Frame>) {
    && (forall k | 0 <= k < |frames| :: frames[k].sequence == k)
    && (forall k | 0 <= k < |frames| - 1 :: !IsEnd(frames[k].body))
    && (forall j :: PhaseAt(frames, j) != Broken)
  }

  /** A finished response lists item `j` at position `j`, every index of the stream has
      ended as that item, and there is no other index. */
  ghost predicate Complete(frames: seq<Frame>) {
    && frames != []
    && var last := frames[|frames| - 1].body;
    && (last.Completed? || last.Incomplete?)
    && (forall j | 0 <= j < |last.response.output| :: PhaseAt(frames, j) == Ended(last.response.output[j]))
    && (forall j | !(0 <= j < |last.response.output|) :: PhaseAt(frames, j) == Absent)
  }

  lemma LiveDisciplined(s: Encoder)
    requires Live(s)
    ensures Disciplined(s.frames)
  {
    forall j ensures PhaseAt(s.frames, j) != Broken {
      assert Life(s.frames)(j) == PhaseAt(s.frames, j);
      if 0 <= j < s.nextIndex {
        assert Owned(s, j);
        if i :| i in s.tools && s.tools[i].outputIndex == j {
          assert ToolPhase(s, s.tools[i], Life(s.frames));
        }
      }
    }
  }

  lemma LastFrame(s: Encoder, b: Body)
    requires Numbered(s.frames, s.sequence) && !HasIndex(b) && forall j :: PhaseAt(s.frames, j) != Broken
    ensures Disciplined(Emit(s, b).frames)
    ensures forall j :: PhaseAt(Emit(s, b).frames, j) == PhaseAt(s.frames, j)
  {
    Silent(s, b);
    forall j ensures PhaseAt(Emit(s, b).frames, j) == PhaseAt(s.frames, j) {
      assert Life(Emit(s, b).frames)(j) == Life(s.frames)(j);
    }
  }

  lemma TerminalCompletes(s: Encoder, status: string, reason: string)
    requires AllEnded(s)
    ensures var resp := TerminalResponse(s, status, reason);
            var s' := Emit(s.(finished := true), if status == "incomplete" then Incomplete(resp) else Completed(resp));
            Disciplined(s'.frames) && Complete(s'.frames)
  {
    hide Disciplined, SortedOutput, Numbered, PhaseAt;
    SortedOutputAll(s.output, s.nextIndex);
    var resp := TerminalResponse(s, status, reason);
    var b := if status == "incomplete" then Incomplete(resp) else Completed(resp);
    assert forall j :: PhaseAt(s.frames, j) != Broken;
    LastFrame(s.(finished := true), b);
    var frames := Emit(s.(finished := true), b).frames;
    assert frames[|frames| - 1].body == b;
  }

  lemma FinishCompletes(s: Encoder, status: string, reason: string, usage: Usage, indexes: seq<int>)
    requires Live(s) && forall i | i in s.tools :: i in indexes
    ensures var s' := Finish(s, status, reason, usage, indexes);
            s'.finished && Disciplined(s'.frames) && Complete(s'.frames)
  {
    var counted := s.(usage := if usage.IsZero() then s.usage else usage);
    var status' := ResponseStatus(status, reason, if s.textRefusal then s.text else "");
    Recounted(s, counted);
    CloseAllEndsAll(counted, status', indexes);
    TerminalCompletes(CloseAll(counted, status', indexes), status', reason);
  }

  lemma Recounted(s: Encoder, s': Encoder)
    requires Live(s) && s' == s.(usage := s'.usage)
    ensures Live(s')
  {
    Unmoved(s, Life(s.frames), s', Life(s'.frames));
  }

  lemma StepLive(s: Encoder, e: Event)
    requires Live(s) && !e.IsTerminal()
    ensures Live(Step(s, e))
  {
    hide Live, WriteTextDelta, WriteReasoningDelta, WriteToolStart, WriteToolDelta, WriteToolDone, Finish;
    match e
    case TextDelta(_, delta) => WriteTextLive(s, delta, false);
    case RefusalDelta(_, delta) => WriteTextLive(s, delta, true);
    case ReasoningDelta(_, delta, signature) => WriteReasoningLive(s, delta, signature);
    case ToolStart(index, callID, name, signature) => WriteToolStartLive(s, index, callID, name, signature);
    case ToolDelta(index, callID, name, delta) => WriteToolDeltaLive(s, index, callID, name, delta);
    case ToolDone(index, callID, name, arguments, signature) =>
      WriteToolDoneLive(s, index, callID, name, arguments, signature);
    case UsageReport(usage) => Recounted(s, s.(usage := usage));
    case ResponseStart(_, _, _) =>
    case MessageStart(_, _) =>
  }

  /** Every run without a terminal event is live: it can always go on. */
  lemma {:induction false} RunLive(id: string, created: int, model: string, events: seq<Event>)
    requires NoTerminal(events)
    ensures Live(Encode(id, created, model, events))
  {
    if events == [] {
      InitLive(id, created, model);
    } else {
      var before, e := events[..|events| - 1], events[|events| - 1];
      assert e in events && forall x <- before :: x in events;
      RunLive(id, created, model, before);
      StepLive(Encode(id, created, model, before), e);
    }
  }

  /** Once a run has ended nothing more is written, whatever follows. */
  lemma {:induction false} EncodeStops(id: string, created: int, model: string, events: seq<Event>, rest: seq<Event>)
    requires Encode(id, created, model, events).finished
    ensures Encode(id, created, model, events + rest) == Encode(id, created, model, events)
  {
    if rest == [] {
      assert events + rest == events;
    } else {
      EncodeStops(id, created, model, events, rest[..|rest| - 1]);
      assert events + rest == events + rest[..|rest| - 1] + [rest[|rest| - 1]];
      EncodeSnoc(id, created, model, events + rest[..|rest| - 1], rest[|rest| - 1]);
    }
  }

  lemma AbortDisciplined(s: Encoder, error: Option<ErrorData>)
    requires Live(s)
    ensures Disciplined(Abort(s, error).frames)
  {
    LiveDisciplined(s);
    if error.Some? {
      LastFrame(s, ErrorFrame(error.value.code, error.value.message));
    }
  }

  lemma StepDisciplined(s: Encoder, e: Event)
    requires Live(s)
    ensures Disciplined(Step(s, e).frames)
    ensures Step(s, e).finished <==> e.IsTerminal()
    ensures !e.IsTerminal() ==> Live(Step(s, e))
  {
    if e.ResponseDone? {
      FinishCompletes(s, e.status, e.finishReason, s.usage, SortedKeys(s.tools.Keys));
    } else if e.StreamError? {
      AbortDisciplined(s, e.error);
    } else {
      StepLive(s, e);
      LiveDisciplined(Step(s, e));
    }
  }

  /** Every run whatsoever is disciplined, and over exactly when a terminal event came. */
  lemma {:induction false} RunDisciplined(id: string, created: int, model: string, events: seq<Event>)
    ensures var s := Encode(id, created, model, events);
            && Disciplined(s.frames)
            && (s.finished <==> !NoTerminal(events))
            && (!s.finished ==> Live(s))
  {
    if events == [] {
      InitLive(id, created, model);
      LiveDisciplined(Init(id, created, model));
    } else {
      var before, e := events[..|events| - 1], events[|events| - 1];
      assert events == before + [e];
      RunDisciplined(id, created, model, before);
      var s := Encode(id, created, model, before);
      if !s.finished {
        StepDisciplined(s, e);
      }
    }
  }

  /** A run that finishes is complete: its terminal frame lists every index once, in
      index order, as the item that index ended as. */
  lemma FinishedRunComplete(id: string, created: int, model: string, body: seq<Event>, status: string, reason: string)
    requires NoTerminal(body)
    ensures Complete(Encode(id, created, model, body + [ResponseDone(status, reason)]).frames)
  {
    hide Encode, Complete, SortedKeys, CloseAll, NoTerminal, Sound;
    RunLive(id, created, model, body);
    var s := Encode(id, created, model, body);
    EncodeSnoc(id, created, model, body, ResponseDone(status, reason));
    FinishCompletes(s, status, reason, s.usage, SortedKeys(s.tools.Keys));
  }

  // ----- The reserved indices, partitioned -----

  function OpenText(s: Encoder): set<int> {
    if s.textOpen then {s.textIndex} else {}
  }

  function OpenReasoning(s: Encoder): set<int> {
    if s.reasoningOpen then {s.reasoningIndex} else {}
  }

  function OpenTools(s: Encoder): set<int> {
    set i | i in s.tools && !s.tools[i].done :: s.tools[i].outputIndex
  }

  /** In every reachable live state the indices reserved so far split into finished
      items, the open text, the open reasoning and the calls not yet done. */
  lemma ReservedIndicesPartition(id: string, created: int, model: string, events: seq<Event>)
    requires NoTerminal(events)
    ensures var s := Encode(id, created, model, events);
            && (forall j :: 0 <= j < s.nextIndex <==> j in s.output.Keys + OpenText(s) + OpenReasoning(s) + OpenTools(s))
            && s.output.Keys !! OpenText(s) !! OpenReasoning(s) !! OpenTools(s)
            && (forall i, k | i in s.tools && k in s.tools && i != k :: s.tools[i].outputIndex != s.tools[k].outputIndex)
  {
    RunLive(id, created, model, events);
    var s := Encode(id, created, model, events);
    SoundPartition(s, Life(s.frames));
  }

  lemma SoundPartition(s: Encoder, ph: int -> Phase)
    requires Phases(s, ph)
    ensures forall j :: 0 <= j < s.nextIndex <==> j in s.output.Keys + OpenText(s) + OpenReasoning(s) + OpenTools(s)
    ensures s.output.Keys !! OpenText(s) !! OpenReasoning(s) !! OpenTools(s)
  {
    forall j | j in OpenTools(s) ensures ph(j).CallOpen? {
      var i :| i in s.tools && !s.tools[i].done && s.tools[i].outputIndex == j;
      assert ToolPhase(s, s.tools[i], ph);
    }
    var parts := s.output.Keys + OpenText(s) + OpenReasoning(s) + OpenTools(s);
    forall j | 0 <= j < s.nextIndex ensures j in parts {
      assert Owned(s, j);
      if i :| i in s.tools && s.tools[i].outputIndex == j {
        assert ToolPhase(s, s.tools[i], ph);
      }
    }
    forall j | j in parts ensures 0 <= j < s.nextIndex {
      assert ph(j) != Absent;
    }
  }
}
