/** readOpenAIChatStreamAsCanonical (internal/stream_convert.go:842-933) and the chunk
    mapping under it (internal/protocol/openai_chat_response.go:82-152). */
module ChatReader {
  import opened Canonical
  import opened ToolTracker

  datatype Fragment = Fragment(index: Option<int>, id: string, name: string, arguments: string, signature: string)

  datatype ChoiceDelta = ChoiceDelta(role: string, content: string, refusal: string, reasoning: string, calls: seq<Fragment>)

  datatype Choice = Choice(index: int, delta: Option<ChoiceDelta>, finishReason: Option<string>)

  datatype Chunk = Chunk(id: string, created: int, model: string, choices: seq<Choice>, usage: Usage)

  datatype Line = DoneLine | ErrorLine(code: string, kind: string, message: string) | ChunkLine(chunk: Chunk) | Malformed

  // ----- OpenAIChatStreamChunkToCanonical -----

  function FragmentEvents(choiceIndex: int, f: Fragment): seq<Event> {
    var index := if f.index.Some? then f.index.value else choiceIndex;
    (if f.id != "" || f.name != "" then [ToolStart(index, f.id, f.name, f.signature)] else []) +
    (if f.arguments != "" then [ToolDelta(index, f.id, f.name, f.arguments)] else [])
  }

  function FragmentsEvents(choiceIndex: int, calls: seq<Fragment>): seq<Event> {
    if calls == [] then [] else
      FragmentsEvents(choiceIndex, calls[..|calls| - 1]) + FragmentEvents(choiceIndex, calls[|calls| - 1])
  }

  function DeltaEvents(index: int, d: ChoiceDelta): seq<Event> {
    (if d.role != "" then [MessageStart(index, d.role)] else []) +
    (if d.content != "" then [TextDelta(index, d.content)] else []) +
    (if d.refusal != "" then [RefusalDelta(index, d.refusal)] else []) +
    (if d.reasoning != "" then [ReasoningDelta(index, d.reasoning, "")] else []) +
    FragmentsEvents(index, d.calls)
  }

  function ChoiceEvents(c: Choice): seq<Event> {
    (if c.delta.Some? then DeltaEvents(c.index, c.delta.value) else []) +
    (if c.finishReason.Some? then [ResponseDone("", c.finishReason.value)] else [])
  }

  function ChoicesEvents(choices: seq<Choice>): seq<Event> {
    if choices == [] then [] else ChoicesEvents(choices[..|choices| - 1]) + ChoiceEvents(choices[|choices| - 1])
  }

  function ChunkEvents(chunk: Chunk): seq<Event> {
    ChoicesEvents(chunk.choices) + if chunk.usage.IsZero() then [] else [UsageReport(chunk.usage)]
  }

  method MapFragments(choiceIndex: int, calls: seq<Fragment>) returns (out: seq<Event>)
    ensures out == FragmentsEvents(choiceIndex, calls)
  {
    out := [];
    for k := 0 to |calls|
      invariant out == FragmentsEvents(choiceIndex, calls[..k])
    {
      assert calls[..k + 1][..k] == calls[..k];
      var f := calls[k];
      var index := if f.index.Some? then f.index.value else choiceIndex;
      ghost var before := out;
      if f.id != "" || f.name != "" {
        out := out + [ToolStart(index, f.id, f.name, f.signature)];
      }
      if f.arguments != "" {
        out := out + [ToolDelta(index, f.id, f.name, f.arguments)];
      }
      assert out == before + FragmentEvents(choiceIndex, f);
    }
    assert calls[..|calls|] == calls;
  }

  method MapDelta(index: int, d: ChoiceDelta) returns (out: seq<Event>)
    ensures out == DeltaEvents(index, d)
  {
    hide FragmentsEvents;
    out := if d.role != "" then [MessageStart(index, d.role)] else [];
    if d.content != "" {
      out := out + [TextDelta(index, d.content)];
    }
    if d.refusal != "" {
      out := out + [RefusalDelta(index, d.refusal)];
    }
    if d.reasoning != "" {
      out := out + [ReasoningDelta(index, d.reasoning, "")];
    }
    var calls := MapFragments(index, d.calls);
    out := out + calls;
  }

  method MapChunk(chunk: Chunk) returns (out: seq<Event>)
    ensures out == ChunkEvents(chunk)
  {
    out := [];
    var choices := chunk.choices;
    for k := 0 to |choices|
      invariant out == ChoicesEvents(choices[..k])
    {
      assert choices[..k + 1][..k] == choices[..k];
      var c := choices[k];
      ghost var before := out;
      if c.delta.Some? {
        var more := MapDelta(c.index, c.delta.value);
        out := out + more;
      }
      if c.finishReason.Some? {
        out := out + [ResponseDone("", c.finishReason.value)];
      }
      assert out == before + ChoiceEvents(c);
    }
    assert choices[..|choices|] == choices;
    if !chunk.usage.IsZero() {
      out := out + [UsageReport(chunk.usage)];
    }
  }

  // ----- The reader -----

  datatype Status = Running | Stopped | StreamFailed | Aborted

  datatype Reader = Reader(tools: Tracker, usage: Usage, started: bool, done: Option<Event>, status: Status, events: seq<Event>)

  const START := Reader(EMPTY, NO_USAGE, false, None, Running, [])

  function Say(r: Reader, e: Event): Reader {
    r.(events := r.events + [e])
  }

  function StopAll(r: Reader): (r': Reader)
    requires r.tools.Valid()
    ensures r'.tools.Valid()
  {
    var d := DoneAll(r.tools);
    r.(tools := d.0, events := r.events + d.1)
  }

  /** One event of a chunk. */
  function ReadEvent(r: Reader, e: Event): (r': Reader)
    requires r.tools.Valid()
    ensures r'.tools.Valid()
  {
    match e
    case ToolStart(index, callID, name, signature) =>
      var s := Start(r.tools, index, callID, name, signature);
      r.(tools := s.0, events := r.events + Opt(s.1))
    case ToolDelta(index, callID, name, delta) =>
      var d := Delta(r.tools, index, callID, name, delta);
      r.(tools := d.0, events := r.events + [d.1])
    case UsageReport(usage) => Say(r.(usage := usage), e)
    case ResponseDone(_, _) => StopAll(r).(done := Some(e))
    case _ => Say(r, e)
  }

  function ReadEvents(r: Reader, events: seq<Event>): (r': Reader)
    requires r.tools.Valid()
    ensures r'.tools.Valid()
  {
    if events == [] then r else ReadEvent(ReadEvents(r, events[..|events| - 1]), events[|events| - 1])
  }

  function Begin(r: Reader, chunk: Chunk): Reader {
    if r.started then r else Say(r, ResponseStart(chunk.id, chunk.created, chunk.model)).(started := true)
  }

  function ReadLine(r: Reader, line: Line): (r': Reader)
    requires r.tools.Valid()
    ensures r'.tools.Valid()
  {
    if r.status != Running then r else
      match line
      case DoneLine => r.(status := Stopped)
      case ErrorLine(code, kind, message) =>
        Say(r, StreamError(Some(ErrorData(FirstNonEmpty(code, kind), message)))).(status := StreamFailed)
      case Malformed => r.(status := Aborted)
      case ChunkLine(chunk) => ReadEvents(Begin(r, chunk), ChunkEvents(chunk))
  }

  function Read(lines: seq<Line>): (r: Reader)
    ensures r.tools.Valid()
  {
    if lines == [] then START else ReadLine(Read(lines[..|lines| - 1]), lines[|lines| - 1])
  }

  /** What follows the loop: open calls are done, then the finish held back is told. */
  function Close(r: Reader): (r': Reader)
    requires r.tools.Valid()
    ensures r'.tools.Valid()
  {
    if r.status == Aborted then r else
      var closed := StopAll(r);
      if r.done.Some? then Say(closed, r.done.value) else closed
  }

  /** Whether the reader reports success, given whether the input ended in an error. */
  predicate Succeeds(r: Reader, scanError: bool) {
    match r.status
    case Running => !scanError && r.done.Some?
    case Stopped => true
    case StreamFailed => false
    case Aborted => false
  }

  lemma StoppedReads(r: Reader, line: Line)
    requires r.tools.Valid() && r.status != Running
    ensures ReadLine(r, line) == r
  {}

  lemma ReadSnoc(lines: seq<Line>, line: Line)
    ensures Read(lines + [line]) == ReadLine(Read(lines), line)
  {
    assert (lines + [line])[..|lines|] == lines;
  }

  lemma {:induction false} ReadStops(lines: seq<Line>, rest: seq<Line>)
    requires Read(lines).status != Running
    ensures Read(lines + rest) == Read(lines)
  {
    hide Read, ReadLine;
    if rest == [] {
      assert lines + rest == lines;
    } else {
      ReadStops(lines, rest[..|rest| - 1]);
      assert lines + rest == lines + rest[..|rest| - 1] + [rest[|rest| - 1]];
      ReadSnoc(lines + rest[..|rest| - 1], rest[|rest| - 1]);
      StoppedReads(Read(lines), rest[|rest| - 1]);
    }
  }

  lemma ReadAt(lines: seq<Line>, k: nat)
    requires k < |lines|
    ensures var r := ReadLine(Read(lines[..k]), lines[k]);
            Read(lines[..k + 1]) == r && (r.status != Running ==> Read(lines) == r)
  {
    hide Read, ReadLine;
    assert lines[..k + 1] == lines[..k] + [lines[k]];
    ReadSnoc(lines[..k], lines[k]);
    if Read(lines[..k + 1]).status != Running {
      assert lines == lines[..k + 1] + lines[k + 1..];
      ReadStops(lines[..k + 1], lines[k + 1..]);
    }
  }

  lemma ReadNothing()
    ensures Read([]) == START
  {}

  /** The inner switch of the reader: one event of a chunk. */
  method HandleEvent(e: Event, tools: ToolCallTracker, usage: Usage, done: Option<Event>, events: seq<Event>, ghost r: Reader)
    returns (usage': Usage, done': Option<Event>, events': seq<Event>)
    requires r.tools.Valid() && tools.View() == r.tools && r.usage == usage && r.done == done && r.events == events
    modifies tools
    ensures ReadEvent(r, e) == r.(tools := tools.View(), usage := usage', done := done', events := events')
  {
    hide Start, Delta, DoneAll;
    usage', done', events' := usage, done, events;
    match e {
      case ToolStart(index, callID, name, signature) =>
        var stable := tools.StartCall(index, callID, name, signature);
        events' := events' + Opt(stable);
      case ToolDelta(index, callID, name, delta) =>
        var fed := tools.AddDelta(index, callID, name, delta);
        events' := events' + [fed];
      case UsageReport(total) =>
        usage' := total;
        events' := events' + [e];
      case ResponseDone(_, _) =>
        var more := tools.FinishAll();
        events' := events' + more;
        done' := Some(e);
      case _ => events' := events' + [e];
    }
  }

  /** The inner loop of the reader, over the events of one chunk. */
  method ReadChunk(chunk: Chunk, tools: ToolCallTracker, usage: Usage, done: Option<Event>, events: seq<Event>, ghost r: Reader)
    returns (usage': Usage, done': Option<Event>, events': seq<Event>)
    requires r.tools.Valid() && tools.View() == r.tools && r.usage == usage && r.done == done && r.events == events
    modifies tools
    ensures ReadEvents(r, ChunkEvents(chunk)) == r.(tools := tools.View(), usage := usage', done := done', events := events')
  {
    hide ReadEvent;
    usage', done', events' := usage, done, events;
    var out := MapChunk(chunk);
    for k := 0 to |out|
      invariant tools.View().Valid()
      invariant ReadEvents(r, out[..k]) == r.(tools := tools.View(), usage := usage', done := done', events := events')
    {
      assert out[..k + 1][..k] == out[..k];
      usage', done', events' := HandleEvent(out[k], tools, usage', done', events', ReadEvents(r, out[..k]));
    }
    assert out[..|out|] == out;
  }

  method ReadStream(lines: seq<Line>, scanError: bool) returns (events: seq<Event>, usage: Usage, ok: bool)
    ensures events == Close(Read(lines)).events && usage == Read(lines).usage
    ensures ok <==> Succeeds(Read(lines), scanError)
  {
    hide Read, ReadEvents, ChunkEvents, DoneAll;
    ReadNothing();
    events, usage := [], NO_USAGE;
    var tools := new ToolCallTracker();
    var done: Option<Event>, started, status := None, false, Running;
    var k := 0;
    while k < |lines| && status == Running
      invariant 0 <= k <= |lines| && fresh(tools) && tools.View().Valid() && status != Aborted
      invariant Reader(tools.View(), usage, started, done, status, events) == if status == Running then Read(lines[..k]) else Read(lines)
      decreases |lines| - k
    {
      ReadAt(lines, k);
      match lines[k] {
        case DoneLine => status := Stopped;
        case ErrorLine(code, kind, message) =>
          events := events + [StreamError(Some(ErrorData(FirstNonEmpty(code, kind), message)))];
          status := StreamFailed;
        case Malformed => return events, usage, false;
        case ChunkLine(chunk) =>
          ghost var r := Read(lines[..k]);
          if !started {
            events := events + [ResponseStart(chunk.id, chunk.created, chunk.model)];
            started := true;
          }
          ReadEventsKeepStatus(Begin(r, chunk), ChunkEvents(chunk));
          usage, done, events := ReadChunk(chunk, tools, usage, done, events, Begin(r, chunk));
      }
      k := k + 1;
    }
    assert lines[..|lines|] == lines;
    var more := tools.FinishAll();
    events := events + more;
    if done.Some? {
      events := events + [done.value];
    }
    ok := status == Stopped || (status == Running && !scanError && done.Some?);
  }

  lemma {:induction false} ReadEventsKeepStatus(r: Reader, events: seq<Event>)
    requires r.tools.Valid()
    ensures ReadEvents(r, events).status == r.status && ReadEvents(r, events).started == r.started
  {
    if events != [] {
      ReadEventsKeepStatus(r, events[..|events| - 1]);
    }
  }
}
