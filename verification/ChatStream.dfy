/** What every OpenAI Chat stream becomes (internal/stream_convert.go:842-933 over
    internal/protocol/openai_chat_response.go:82-152): the words, the usage and the finish of
    its choices, and each call started at most once and done exactly once, with what arrived
    for it before it was done. What a stream says is told here from its lines alone. */
module ChatStream {
  import opened Canonical
  import opened ToolTracker
  import opened Gatherings
  import opened ChatReader

  // ----- What the upstream says -----

  /** What is said so far, and the last finish reason. */
  datatype Heard = Heard(said: Said, end: Option<string>)

  function HearDelta(s: Said, index: int, d: ChoiceDelta): Said {
    s.(text := s.text + d.content, refusal := s.refusal + d.refusal, reasoning := s.reasoning + d.reasoning,
       notices := if d.role == "" then s.notices else s.notices + [MessageStart(index, d.role)])
  }

  function HearChoice(h: Heard, c: Choice): Heard {
    Heard(if c.delta.Some? then HearDelta(h.said, c.index, c.delta.value) else h.said,
          if c.finishReason.Some? then c.finishReason else h.end)
  }

  function HearChoices(h: Heard, choices: seq<Choice>): Heard {
    if choices == [] then h else HearChoice(HearChoices(h, choices[..|choices| - 1]), choices[|choices| - 1])
  }

  /** The first chunk opens the response; a usage that is not zero replaces the one before. */
  function HearChunk(h: Heard, chunk: Chunk): Heard {
    var opened' := if h.said.notices != [] then h
                   else h.(said := h.said.(notices := [ResponseStart(chunk.id, chunk.created, chunk.model)]));
    var heard := HearChoices(opened', chunk.choices);
    if chunk.usage == NO_USAGE then heard else heard.(said := heard.said.(usage := chunk.usage))
  }

  /** One fragment, as it concerns index `i`: its own index, or that of its choice. */
  function HearFragment(g: Gathering, choiceIndex: int, f: Fragment, i: int): Gathering {
    if (if f.index.Some? then f.index.value else choiceIndex) != i then g
    else if f.id == "" && f.name == "" && f.arguments == "" then g
    else g.Mention(f.id, f.name, if f.id == "" && f.name == "" then "" else f.signature).Feed(f.arguments)
  }

  function HearFragments(g: Gathering, choiceIndex: int, calls: seq<Fragment>, i: int): Gathering {
    if calls == [] then g else
      HearFragment(HearFragments(g, choiceIndex, calls[..|calls| - 1], i), choiceIndex, calls[|calls| - 1], i)
  }

  /** A finish reason ends every call mentioned so far. */
  function HearCallsOf(g: Gathering, c: Choice, i: int): Gathering {
    var fed := if c.delta.Some? then HearFragments(g, c.index, c.delta.value.calls, i) else g;
    if c.finishReason.Some? then fed.End("") else fed
  }

  function HearCallsOfAll(g: Gathering, choices: seq<Choice>, i: int): Gathering {
    if choices == [] then g else
      HearCallsOf(HearCallsOfAll(g, choices[..|choices| - 1], i), choices[|choices| - 1], i)
  }

  predicate AllChunks(lines: seq<Line>) {
    forall line <- lines :: line.ChunkLine?
  }

  /** The first line that is no chunk: it ends the stream. */
  function Stop(lines: seq<Line>): Option<Line> {
    if lines == [] then None else
      var before, line := lines[..|lines| - 1], lines[|lines| - 1];
      if AllChunks(before) && !line.ChunkLine? then Some(line) else Stop(before)
  }

  /** What the lines say, up to the first that is no chunk; an error is told as well. */
  function Hear(lines: seq<Line>): Heard {
    if lines == [] then Heard(NOTHING_SAID, None) else
      var h, line := Hear(lines[..|lines| - 1]), lines[|lines| - 1];
      if !AllChunks(lines[..|lines| - 1]) then h
      else match line
           case ChunkLine(chunk) => HearChunk(h, chunk)
           case ErrorLine(code, kind, message) =>
             h.(said := h.said.(notices := h.said.notices + [StreamError(Some(ErrorData(if code == "" then kind else code, message)))]))
           case _ => h
  }

  /** What the chunks send for tool index `i`. */
  function HearCall(lines: seq<Line>, i: int): Gathering {
    if lines == [] then NotSeen else
      var g, line := HearCall(lines[..|lines| - 1], i), lines[|lines| - 1];
      if line.ChunkLine? && AllChunks(lines[..|lines| - 1]) then HearCallsOfAll(g, line.chunk.choices, i) else g
  }

  // ----- The reader follows -----

  predicate NoEnd(events: seq<Event>) {
    forall p | 0 <= p < |events| :: !events[p].ResponseDone?
  }

  /** The reader has told what was heard; the finish is held back. */
  ghost predicate Follows(r: Reader, h: Heard, g: int -> Gathering) {
    && r.tools.Valid() && HoldsAll(r.tools, r.events, g)
    && Says(r.events, h.said) && r.usage == h.said.usage && NoEnd(r.events)
    && r.done == (if h.end.None? then None else Some(ResponseDone("", h.end.value)))
  }

  lemma SayFollows(r: Reader, h: Heard, g: int -> Gathering, e: Event)
    requires Follows(r, h, g) && !e.IsTool() && !e.ResponseDone?
    ensures Follows(Say(if e.UsageReport? then r.(usage := e.usage) else r, e), h.(said := Saying(h.said, e)), g)
  {
    hide HoldsAll, Says;
    OtherHolds(r.tools, r.events, e, g);
    SaysNext(r.events, e, h.said);
  }

  lemma ToolFollows(r: Reader, h: Heard, g: int -> Gathering, e: Event, g': int -> Gathering)
    requires Follows(r, h, g) && (e.ToolStart? || e.ToolDelta?)
    requires forall i :: g'(i) ==
               if i != e.index then g(i)
               else if e.ToolStart? then g(i).Mention(e.callID, e.name, e.signature)
               else g(i).Mention(e.callID, e.name, "").Feed(e.delta)
    ensures Follows(ReadEvent(r, e), h, g')
  {
    hide HoldsAll, Says;
    var r' := ReadEvent(r, e);
    if e.ToolStart? {
      StartHolds(r.tools, r.events, e.index, e.callID, e.name, e.signature, g, g');
      SaysCalls(r.events, Opt(Start(r.tools, e.index, e.callID, e.name, e.signature).1), h.said);
    } else {
      DeltaHolds(r.tools, r.events, e.index, e.callID, e.name, e.delta, g, g');
      SaysCalls(r.events, [Delta(r.tools, e.index, e.callID, e.name, e.delta).1], h.said);
    }
  }

  lemma StopAllFollows(r: Reader, h: Heard, g: int -> Gathering, g': int -> Gathering)
    requires Follows(r, h, g) && forall i :: g'(i) == g(i).End("")
    ensures Follows(StopAll(r), h, g') && StopAll(r).status == r.status && StopAll(r).tools.AllDone()
  {
    hide HoldsAll, Says, DoneFirst;
    assert Tracks(r.tools, r.events) by { HoldingTracks(r, g); }
    DoneAllHolds(r.tools, r.events, g, g');
    TracksDoneAll(r.tools, r.events);
    DoneFirstIsTools(r.tools, |r.tools.order|);
    SaysCalls(r.events, DoneAll(r.tools).1, h.said);
  }

  lemma HoldingTracks(r: Reader, g: int -> Gathering)
    requires HoldsAll(r.tools, r.events, g)
    ensures Tracks(r.tools, r.events)
  {}

  lemma EndFollows(r: Reader, h: Heard, g: int -> Gathering, reason: string, g': int -> Gathering)
    requires Follows(r, h, g) && forall i :: g'(i) == g(i).End("")
    ensures Follows(ReadEvent(r, ResponseDone("", reason)), h.(end := Some(reason)), g')
  {
    hide HoldsAll, Says, StopAll;
    StopAllFollows(r, h, g, g');
  }

  // ----- Fragments, choices, chunks -----

  lemma {:induction false} ReadAppend(r: Reader, a: seq<Event>, b: seq<Event>)
    requires r.tools.Valid()
    ensures ReadEvents(r, a + b) == ReadEvents(ReadEvents(r, a), b)
  {
    hide ReadEvent;
    if b == [] {
      assert a + b == a;
    } else {
      assert (a + b)[..|a + b| - 1] == a + b[..|b| - 1];
      ReadAppend(r, a, b[..|b| - 1]);
    }
  }

  lemma ReadOne(r: Reader, e: Event)
    requires r.tools.Valid()
    ensures ReadEvents(r, [e]) == ReadEvent(r, e) && ReadEvents(r, []) == r
  {
    assert [e][..0] == [];
  }

  lemma SameFollows(r: Reader, h: Heard, g: int -> Gathering, g': int -> Gathering)
    requires Follows(r, h, g) && forall i :: g'(i) == g(i)
    ensures Follows(r, h, g')
  {
    hide Tracks, Says, Holds;
  }

  lemma FragmentFollows(r: Reader, h: Heard, g: int -> Gathering, choiceIndex: int, f: Fragment, g': int -> Gathering)
    requires r.tools.Valid() && Follows(r, h, g) && forall i :: g'(i) == HearFragment(g(i), choiceIndex, f, i)
    ensures Follows(ReadEvents(r, FragmentEvents(choiceIndex, f)), h, g')
  {
    hide Follows, ReadEvent;
    var index := if f.index.Some? then f.index.value else choiceIndex;
    var start, delta := ToolStart(index, f.id, f.name, f.signature), ToolDelta(index, f.id, f.name, f.arguments);
    ReadOne(r, start);
    ReadOne(r, delta);
    if f.id != "" || f.name != "" {
      var mid := i => if i == index then g(i).Mention(f.id, f.name, f.signature) else g(i);
      ToolFollows(r, h, g, start, mid);
      if f.arguments != "" {
        ToolFollows(ReadEvent(r, start), h, mid, delta, g');
        ReadAppend(r, [start], [delta]);
        ReadOne(ReadEvent(r, start), delta);
      } else {
        assert [start] + [] == [start];
        SameFollows(ReadEvent(r, start), h, mid, g');
      }
    } else if f.arguments != "" {
      assert [] + [delta] == [delta];
      ToolFollows(r, h, g, delta, g');
    } else {
      assert FragmentEvents(choiceIndex, f) == [];
      SameFollows(r, h, g, g');
    }
  }

  lemma {:induction false} FragmentsFollow(r: Reader, h: Heard, g: int -> Gathering, choiceIndex: int, calls: seq<Fragment>, g': int -> Gathering)
    requires r.tools.Valid() && Follows(r, h, g) && forall i :: g'(i) == HearFragments(g(i), choiceIndex, calls, i)
    ensures Follows(ReadEvents(r, FragmentsEvents(choiceIndex, calls)), h, g')
  {
    hide Follows, ReadEvent, HearFragment, FragmentEvents;
    if calls == [] {
      SameFollows(r, h, g, g');
    } else {
      var before, f := calls[..|calls| - 1], calls[|calls| - 1];
      var mid := i => HearFragments(g(i), choiceIndex, before, i);
      FragmentsFollow(r, h, g, choiceIndex, before, mid);
      ReadAppend(r, FragmentsEvents(choiceIndex, before), FragmentEvents(choiceIndex, f));
      FragmentFollows(ReadEvents(r, FragmentsEvents(choiceIndex, before)), h, mid, choiceIndex, f, g');
    }
  }

  /** A word, told unless empty. */
  lemma WordFollows(r: Reader, h: Heard, g: int -> Gathering, e: Event, words: seq<Event>, h': Heard)
    requires r.tools.Valid() && Follows(r, h, g) && (words == [e] || words == []) && !e.IsTool() && !e.ResponseDone? && !e.UsageReport?
    requires h' == if words == [] then h else h.(said := Saying(h.said, e))
    ensures Follows(ReadEvents(r, words), h', g)
  {
    hide Follows;
    ReadOne(r, e);
    SayFollows(r, h, g, e);
  }

  lemma DeltaFollows(r: Reader, h: Heard, g: int -> Gathering, index: int, d: ChoiceDelta, g': int -> Gathering)
    requires r.tools.Valid() && Follows(r, h, g) && forall i :: g'(i) == HearFragments(g(i), index, d.calls, i)
    ensures Follows(ReadEvents(r, DeltaEvents(index, d)), h.(said := HearDelta(h.said, index, d)), g')
  {
    hide Follows, ReadEvents, FragmentsEvents, HearFragments;
    var role := if d.role != "" then [MessageStart(index, d.role)] else [];
    var content := if d.content != "" then [TextDelta(index, d.content)] else [];
    var refusal := if d.refusal != "" then [RefusalDelta(index, d.refusal)] else [];
    var reasoning := if d.reasoning != "" then [ReasoningDelta(index, d.reasoning, "")] else [];
    var h1 := if d.role == "" then h else h.(said := h.said.(notices := h.said.notices + [MessageStart(index, d.role)]));
    var h2 := h1.(said := h1.said.(text := h1.said.text + d.content));
    var h3 := h2.(said := h2.said.(refusal := h2.said.refusal + d.refusal));
    var h4 := h3.(said := h3.said.(reasoning := h3.said.reasoning + d.reasoning));
    WordFollows(r, h, g, MessageStart(index, d.role), role, h1);
    var r1 := ReadEvents(r, role);
    assert h1.said.text + "" == h1.said.text;
    WordFollows(r1, h1, g, TextDelta(index, d.content), content, h2);
    var r2 := ReadEvents(r1, content);
    assert h2.said.refusal + "" == h2.said.refusal;
    WordFollows(r2, h2, g, RefusalDelta(index, d.refusal), refusal, h3);
    var r3 := ReadEvents(r2, refusal);
    assert h3.said.reasoning + "" == h3.said.reasoning && h3.said.signature + "" == h3.said.signature;
    WordFollows(r3, h3, g, ReasoningDelta(index, d.reasoning, ""), reasoning, h4);
    FragmentsFollow(ReadEvents(r3, reasoning), h4, g, index, d.calls, g');
    ReadAppend(r, role, content);
    ReadAppend(r, role + content, refusal);
    ReadAppend(r, role + content + refusal, reasoning);
    ReadAppend(r, role + content + refusal + reasoning, FragmentsEvents(index, d.calls));
  }

  lemma ChoiceFollows(r: Reader, h: Heard, g: int -> Gathering, c: Choice, g': int -> Gathering)
    requires r.tools.Valid() && Follows(r, h, g) && forall i :: g'(i) == HearCallsOf(g(i), c, i)
    ensures Follows(ReadEvents(r, ChoiceEvents(c)), HearChoice(h, c), g')
  {
    hide Follows, ReadEvents, ReadEvent, DeltaEvents, HearFragments, HearDelta;
    var body := if c.delta.Some? then DeltaEvents(c.index, c.delta.value) else [];
    var end := if c.finishReason.Some? then [ResponseDone("", c.finishReason.value)] else [];
    var fed := i => if c.delta.Some? then HearFragments(g(i), c.index, c.delta.value.calls, i) else g(i);
    var h1 := if c.delta.Some? then h.(said := HearDelta(h.said, c.index, c.delta.value)) else h;
    ReadNone(r);
    if c.delta.Some? {
      DeltaFollows(r, h, g, c.index, c.delta.value, fed);
    } else {
      SameFollows(r, h, g, fed);
    }
    var r1 := ReadEvents(r, body);
    ReadAppend(r, body, end);
    ReadNone(r1);
    if c.finishReason.Some? {
      ReadOne(r1, ResponseDone("", c.finishReason.value));
      EndFollows(r1, h1, fed, c.finishReason.value, g');
    } else {
      SameFollows(r1, h1, fed, g');
    }
  }

  lemma ReadNone(r: Reader)
    requires r.tools.Valid()
    ensures ReadEvents(r, []) == r
  {}

  lemma {:induction false} ChoicesFollow(r: Reader, h: Heard, g: int -> Gathering, choices: seq<Choice>, g': int -> Gathering)
    requires r.tools.Valid() && Follows(r, h, g) && forall i :: g'(i) == HearCallsOfAll(g(i), choices, i)
    ensures Follows(ReadEvents(r, ChoicesEvents(choices)), HearChoices(h, choices), g')
  {
    hide Follows, ReadEvent, HearChoice, ChoiceEvents, HearCallsOf;
    if choices == [] {
      SameFollows(r, h, g, g');
    } else {
      var before, c := choices[..|choices| - 1], choices[|choices| - 1];
      var mid := i => HearCallsOfAll(g(i), before, i);
      ChoicesFollow(r, h, g, before, mid);
      ReadAppend(r, ChoicesEvents(before), ChoiceEvents(c));
      ChoiceFollows(ReadEvents(r, ChoicesEvents(before)), HearChoices(h, before), mid, c, g');
    }
  }

  /** Whether the response has been opened shows in what was said. */
  ghost predicate Along(r: Reader, h: Heard, g: int -> Gathering) {
    Follows(r, h, g) && (r.status == Running ==> (r.started <==> h.said.notices != []))
  }

  lemma ChunkFollows(r: Reader, h: Heard, g: int -> Gathering, chunk: Chunk, g': int -> Gathering)
    requires r.tools.Valid() && r.status == Running && Along(r, h, g) && forall i :: g'(i) == HearCallsOfAll(g(i), chunk.choices, i)
    ensures Along(ReadEvents(Begin(r, chunk), ChunkEvents(chunk)), HearChunk(h, chunk), g')
  {
    hide Follows, ReadEvents, ChoicesEvents, HearChoices, HearCallsOfAll;
    var start := ResponseStart(chunk.id, chunk.created, chunk.model);
    var begun := Begin(r, chunk);
    var h1 := if h.said.notices != [] then h else h.(said := h.said.(notices := [start]));
    assert Follows(begun, h1, g) by {
      if !r.started {
        assert [] + [start] == [start];
        SayFollows(r, h, g, start);
        FlagFollows(Say(r, start), h1, g);
      }
    }
    ChoicesFollow(begun, h1, g, chunk.choices, g');
    var r1, h2 := ReadEvents(begun, ChoicesEvents(chunk.choices)), HearChoices(h1, chunk.choices);
    var usage := if chunk.usage.IsZero() then [] else [UsageReport(chunk.usage)];
    ReadAppend(begun, ChoicesEvents(chunk.choices), usage);
    ReadNone(r1);
    if !chunk.usage.IsZero() {
      ReadOne(r1, UsageReport(chunk.usage));
      SayFollows(r1, h2, g', UsageReport(chunk.usage));
    }
    NoticesGrow(h1, chunk.choices);
    ReadEventsKeepStatus(begun, ChunkEvents(chunk));
  }

  lemma FlagFollows(r: Reader, h: Heard, g: int -> Gathering)
    requires Follows(r, h, g)
    ensures Follows(r.(started := true), h, g)
  {}

  lemma {:induction false} NoticesGrow(h: Heard, choices: seq<Choice>)
    ensures h.said.notices <= HearChoices(h, choices).said.notices
  {
    if choices != [] {
      NoticesGrow(h, choices[..|choices| - 1]);
    }
  }

  // ----- The whole stream -----

  /** How the reader stands after its lines. */
  function StatusAfter(stop: Option<Line>): Status {
    match stop
    case None => Running
    case Some(DoneLine) => Stopped
    case Some(ErrorLine(_, _, _)) => StreamFailed
    case Some(_) => Aborted
  }

  lemma {:induction false} StopIsSome(lines: seq<Line>)
    ensures Stop(lines).None? <==> AllChunks(lines)
    ensures Stop(lines).Some? ==> !Stop(lines).value.ChunkLine?
  {
    if lines != [] {
      StopIsSome(lines[..|lines| - 1]);
      assert lines == lines[..|lines| - 1] + [lines[|lines| - 1]];
    }
  }

  /** The reader follows every stream. */
  lemma {:induction false} ReadFollows(lines: seq<Line>)
    ensures Along(Read(lines), Hear(lines), i => HearCall(lines, i)) && Read(lines).status == StatusAfter(Stop(lines))
  {
    hide Follows, ReadEvents, ChunkEvents, HearChunk, HearCallsOfAll;
    var g := i => HearCall(lines, i);
    if lines == [] {
      StartFollows(g);
    } else {
      var before, line := lines[..|lines| - 1], lines[|lines| - 1];
      ReadFollows(before);
      StopIsSome(before);
      var r, h, f := Read(before), Hear(before), i => HearCall(before, i);
      match line {
        case ChunkLine(chunk) =>
          if r.status == Running {
            ChunkFollows(r, h, f, chunk, g);
            ReadEventsKeepStatus(Begin(r, chunk), ChunkEvents(chunk));
          } else {
            SameFollows(r, h, f, g);
          }
        case ErrorLine(code, kind, message) =>
          SameFollows(r, h, f, g);
          if r.status == Running {
            var failed := r.(status := StreamFailed);
            var e := StreamError(Some(ErrorData(if code == "" then kind else code, message)));
            StatusFollows(r, h, g, StreamFailed);
            SayFollows(failed, h, g, e);
          }
        case _ =>
          SameFollows(r, h, f, g);
          StatusFollows(r, h, g, if line.DoneLine? then Stopped else Aborted);
      }
    }
  }

  lemma StartFollows(g: int -> Gathering)
    requires forall i :: g(i) == NotSeen
    ensures Along(START, Heard(NOTHING_SAID, None), g)
  {
    TracksEmpty();
  }

  lemma StatusFollows(r: Reader, h: Heard, g: int -> Gathering, status: Status)
    requires Follows(r, h, g)
    ensures Follows(r.(status := status), h, g)
  {}

  /** All that is said, with the finish held back. */
  function Finished(h: Heard): Said {
    match h.end
    case None => h.said
    case Some(reason) => h.said.(notices := h.said.notices + [ResponseDone("", reason)])
  }

  /** The finish, if any, is told once and last. */
  predicate EndsWith(events: seq<Event>, end: Option<string>) {
    match end
    case None => NoEnd(events)
    case Some(reason) => events != [] && events[|events| - 1] == ResponseDone("", reason) && NoEnd(events[..|events| - 1])
  }

  /** Every Chat stream, whatever it contains, is told as it was heard: the words of its
      choices in order, the last usage, the last finish reason once and last; no index is
      started or done twice, a Start comes first, and every index mentioned is done exactly
      once, with the first id and name, the last signature and the arguments received for it
      up to the first finish reason. Only a line that cannot be decoded leaves calls open. */
  lemma ChatStreamOnce(lines: seq<Line>)
    ensures var r := Read(lines);
            var events, h := Close(r).events, Hear(lines);
            && OnceEach(events) && r.usage == h.said.usage
            && Says(events, if r.status == Aborted then h.said else Finished(h))
            && (r.status == Aborted <==> Stop(lines) == Some(Malformed))
            && (r.status != Aborted ==>
                  && EndsWith(events, h.end)
                  && forall i :: var g := HearCall(lines, i).End("");
                       if g.NotSeen? then CallAt(events, i).Unseen? else IsDone(events, i, g))
  {
    hide Read, StopAll, HoldsAll, Says, OnceEach, CallAt, HearCall, Hear;
    ReadFollows(lines);
    StopIsSome(lines);
    var r, h, g := Read(lines), Hear(lines), i => HearCall(lines, i);
    if r.status == Aborted {
      FollowingOnce(r, h, g);
    } else {
      var g' := i => HearCall(lines, i).End("");
      StopAllFollows(r, h, g, g');
      FollowingOnce(StopAll(r), h, g');
      ClosedTells(StopAll(r), h, g');
      assert Close(r).events == StopAll(r).events + (if h.end.None? then [] else [ResponseDone("", h.end.value)]);
      forall i ensures var d := HearCall(lines, i).End("");
                       if d.NotSeen? then CallAt(Close(r).events, i).Unseen? else IsDone(Close(r).events, i, d)
      {
        CallTold(StopAll(r), h, g', i);
        assert g'(i) == HearCall(lines, i).End("");
      }
    }
  }

  lemma FollowingOnce(r: Reader, h: Heard, g: int -> Gathering)
    requires Follows(r, h, g)
    ensures OnceEach(r.events) && Says(r.events, h.said) && NoEnd(r.events)
  {}

  /** The finish held back, told after all. */
  lemma ClosedTells(r: Reader, h: Heard, g: int -> Gathering)
    requires Follows(r, h, g)
    ensures var events := r.events + if h.end.None? then [] else [ResponseDone("", h.end.value)];
            OnceEach(events) && Says(events, Finished(h)) && EndsWith(events, h.end)
  {
    hide Says, OnceEach;
    FollowingOnce(r, h, g);
    if h.end.None? {
      assert r.events + [] == r.events;
    } else {
      var e := ResponseDone("", h.end.value);
      SnocOnceEach(r.events, e);
      SaysNext(r.events, e, h.said);
      assert (r.events + [e])[..|r.events|] == r.events;
    }
  }

  lemma CallTold(r: Reader, h: Heard, g: int -> Gathering, i: int)
    requires Follows(r, h, g) && !g(i).Gathering?
    ensures var events := r.events + if h.end.None? then [] else [ResponseDone("", h.end.value)];
            if g(i).NotSeen? then CallAt(events, i).Unseen? else IsDone(events, i, g(i))
  {
    hide Says, OnceEach, CallAt, DoneSignature;
    assert Holds(r.tools, r.events, i, g(i));
    HoldsCall(r.tools, r.events, i, g(i));
    ClosedTells(r, h, g);
    var events := r.events + if h.end.None? then [] else [ResponseDone("", h.end.value)];
    if h.end.None? {
      assert events == r.events;
    } else {
      SnocCall(r.events, ResponseDone("", h.end.value), i);
      SnocSignature(r.events, ResponseDone("", h.end.value), i);
    }
    if g(i).Gathered? {
      OnlyDone(events, i, g(i));
    }
  }

  /** A Chat stream is read with success exactly when "[DONE]" ends it, or when it just ends
      after a finish reason. */
  lemma SucceedsIff(lines: seq<Line>, scanError: bool)
    ensures Succeeds(Read(lines), scanError) <==>
            Stop(lines) == Some(DoneLine) || (Stop(lines) == None && !scanError && Hear(lines).end.Some?)
  {
    hide Read, Hear, HearCall, HoldsAll, Says;
    ReadFollows(lines);
    StopIsSome(lines);
  }
}
