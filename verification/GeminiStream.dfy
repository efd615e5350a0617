/** What every Gemini stream becomes (internal/stream_convert.go:935-1013 with
    internal/protocol/gemini_response.go:33-122): the content the chunks carry, each call
    once and complete under the indices 0, 1, 2, ... across chunks, and so a stream that
    survives the trip through either encoder. */
module GeminiStream {
  import opened Canonical
  import opened Gatherings
  import opened GeminiReader
  import Responses = ResponsesReader
  import ResponsesSpec = ResponsesEncoderSpec
  import ResponsesGrammar
  import ResponsesMeaning
  import RRT = ResponsesRoundTrip
  import LockStep
  import Anthropic = AnthropicReader
  import AnthropicSpec = AnthropicEncoderSpec
  import ART = AnthropicRoundTrip

  // ----- What the upstream said -----

  /** What is said; the parts that call a function, in order; whether a finish was told. */
  datatype Upstream = Upstream(said: Said, calls: seq<Part>, ended: bool)

  /** A part without a call speaks, or thinks; one whose call has a name calls it. */
  function HearPart(u: Upstream, part: Part): Upstream {
    match part.call
    case None =>
      if part.thought
      then u.(said := u.said.(reasoning := u.said.reasoning + part.text, signature := u.said.signature + part.signature))
      else u.(said := u.said.(text := u.said.text + part.text))
    case Some(call) => if Trim(call.name) == "" then u else u.(calls := u.calls + [part])
  }

  function HearParts(u: Upstream, parts: seq<Part>): Upstream {
    if parts == [] then u else HearPart(HearParts(u, parts[..|parts| - 1]), parts[|parts| - 1])
  }

  /** The parts of the first candidate. */
  function Spoken(chunk: Chunk): seq<Part> {
    if chunk.candidates == [] then [] else chunk.candidates[0].parts
  }

  /** The reason why a chunk without candidates is blocked, if it is. */
  function Blocked(chunk: Chunk): Option<Block> {
    if chunk.candidates != [] || chunk.block.None? || Trim(chunk.block.value.reason) == "" then None else chunk.block
  }

  function Refuses(block: Option<Block>): string {
    match block
    case None => ""
    case Some(b) => if Trim(b.message) != "" then b.message else "Gemini blocked the prompt: " + b.reason
  }

  /** A finish by "stop" is told as "tool_calls" once any chunk has carried a call. */
  function HeardEnd(reason: string, called: bool): string {
    if reason in {"SAFETY", "RECITATION", "BLOCKLIST", "PROHIBITED_CONTENT", "SPII"} then "content_filter"
    else if reason == "MAX_TOKENS" then "length"
    else if called && ToLower(reason) == "stop" then "tool_calls"
    else ToLower(reason)
  }

  function HearChunk(u: Upstream, chunk: Chunk): Upstream {
    var v := HearParts(u, Spoken(chunk));
    var refused := v.said.(refusal := v.said.refusal + Refuses(Blocked(chunk)),
                           usage := if chunk.usage == NO_USAGE then v.said.usage else chunk.usage);
    var reason := if chunk.candidates == [] then "" else chunk.candidates[0].finishReason;
    if Blocked(chunk).Some? then Finish(v, refused, "content_filter")
    else if reason == "" then v.(said := refused)
    else Finish(v, refused, HeardEnd(reason, v.calls != []))
  }

  function Finish(u: Upstream, said: Said, reason: string): Upstream {
    u.(said := said.(notices := said.notices + [ResponseDone("", reason)]), ended := true)
  }

  function Silence(requestID: string): Upstream {
    Upstream(NOTHING_SAID.(notices := [ResponseStart(requestID, 0, ""), MessageStart(0, "assistant")]), [], false)
  }

  /** The lines up to the first that is no chunk; an error among them is told. */
  function Hear(requestID: string, lines: seq<Line>): Upstream {
    if lines == [] then Silence(requestID) else
      var before, line := lines[..|lines| - 1], lines[|lines| - 1];
      var u := Hear(requestID, before);
      if !AllChunks(before) then u
      else match line
           case ChunkLine(chunk) => HearChunk(u, chunk)
           case ErrorLine(status, code, message) =>
             var e := StreamError(Some(ErrorData(if status != "" then status else FormatInt(code), message)));
             u.(said := u.said.(notices := u.said.notices + [e]))
           case _ => u
  }

  predicate AllChunks(lines: seq<Line>) {
    forall line <- lines :: line.ChunkLine?
  }

  /** The first line that is no chunk: it ends the stream. */
  function Stop(lines: seq<Line>): Option<Line> {
    if lines == [] then None else
      var before, line := lines[..|lines| - 1], lines[|lines| - 1];
      if AllChunks(before) && !line.ChunkLine? then Some(line) else Stop(before)
  }

  lemma {:induction false} StopIsSome(lines: seq<Line>)
    ensures Stop(lines).None? <==> AllChunks(lines)
    ensures Stop(lines).Some? ==> !Stop(lines).value.ChunkLine?
  {
    if lines != [] {
      StopIsSome(lines[..|lines| - 1]);
      assert lines == lines[..|lines| - 1] + [lines[|lines| - 1]];
    }
  }

  // ----- What the canonical stream tells -----

  /** A call of a part: under the trimmed id it brings, or one made of the request and its
      index; with the arguments it brings, or an empty object. */
  predicate ToldAs(call: Call, part: Part, requestID: string, k: int) {
    part.call.Some? && var f := part.call.value;
    && call.Closed? && call.name == f.name
    && call.id == (if Trim(f.id) != "" then Trim(f.id) else "call_" + requestID + "_" + FormatInt(k))
    && call.arguments == if Trim(f.args) != "" && f.args != "null" then f.args else "{}"
  }

  /** The calls are told once each, under the indices 0, 1, 2, ..., with their signatures. */
  ghost predicate CallsTold(requestID: string, events: seq<Event>, calls: seq<Part>) {
    && OnceEach(events) && IdsNonBlank(events)
    && |ToolOrder(events)| == |calls|
    && (forall k | 0 <= k < |calls| :: ToolOrder(events)[k] == k)
    && (forall i :: i in Started(events) <==> 0 <= i < |calls|)
    && (forall i :: if 0 <= i < |calls|
                    then ToldAs(CallAt(events, i), calls[i], requestID, i) && DoneSignature(events, i) == Some(calls[i].signature)
                    else CallAt(events, i).Unseen? && DoneSignature(events, i).None?)
  }

  /** The events tell what the upstream said: its words piece for piece, its k-th call once,
      complete and under index k, its openings, finishes and errors. */
  ghost predicate Tells(requestID: string, events: seq<Event>, u: Upstream) {
    Says(events, u.said) && CallsTold(requestID, events, u.calls)
  }

  lemma CallIDNonBlank(call: FunctionCall, requestID: string, index: int)
    ensures !IsBlank(CallID(call, requestID, index))
  {
    TrimShape(call.id);
    var id := CallID(call, requestID, index);
    if IsBlank(call.id) {
      assert id[0] == 'c' && id[0] in id && !IsSpace('c');
    }
  }

  /** Calls that bring no id get ids of their own. */
  lemma GeneratedIDsDiffer(a: FunctionCall, b: FunctionCall, requestID: string, k: nat, l: nat)
    requires IsBlank(a.id) && IsBlank(b.id) && k != l
    ensures CallID(a, requestID, k) != CallID(b, requestID, l)
  {
    var prefix := "call_" + requestID + "_";
    if CallID(a, requestID, k) == CallID(b, requestID, l) {
      assert (prefix + Decimal(k))[|prefix|..] == Decimal(k) && (prefix + Decimal(l))[|prefix|..] == Decimal(l);
      DecimalInjective(k, l);
    }
  }

  // ----- One event more -----

  lemma SnocIDs(events: seq<Event>, e: Event)
    requires IdsNonBlank(events) && (e.IsTool() ==> !IsBlank(e.callID))
    ensures IdsNonBlank(events + [e])
  {
    var longer := events + [e];
    forall p | 0 <= p < |longer| && longer[p].IsTool()
      ensures CallAt(longer[..p], longer[p].index).Unseen? ==> !IsBlank(longer[p].callID)
    {
      assert p < |events| ==> longer[..p] == events[..p];
    }
  }

  lemma CallsPass(requestID: string, events: seq<Event>, e: Event, calls: seq<Part>)
    requires CallsTold(requestID, events, calls) && !e.IsTool()
    ensures CallsTold(requestID, events + [e], calls)
  {
    hide CallAt, OnceEach, IdsNonBlank, ToldAs, DoneSignature;
    Snoc(events, e);
    SnocIDs(events, e);
    SnocOnceEach(events, e);
    forall i ensures CallAt(events + [e], i) == CallAt(events, i) && DoneSignature(events + [e], i) == DoneSignature(events, i) {
      SnocCall(events, e, i);
      SnocSignature(events, e, i);
    }
  }

  /** An event that is about no call. */
  function HearEvent(u: Upstream, e: Event): Upstream {
    u.(said := Saying(u.said, e), ended := u.ended || e.ResponseDone?)
  }

  lemma EventTold(requestID: string, events: seq<Event>, e: Event, u: Upstream)
    requires Tells(requestID, events, u) && !e.IsTool()
    ensures Tells(requestID, events + [e], HearEvent(u, e))
  {
    hide CallsTold, Says;
    SaysNext(events, e, u.said);
    CallsPass(requestID, events, e, u.calls);
  }

  /** A call that is started, fed and done in a row. */
  function Whole(n: int, id: string, name: string, arguments: string, signature: string): seq<Event> {
    [ToolStart(n, id, name, signature), ToolDelta(n, id, name, arguments), ToolDone(n, id, name, arguments, signature)]
  }

  /** Two prefixes of a stream with such a call, and the whole. */
  lemma WholeSteps(events: seq<Event>, n: int, id: string, name: string, arguments: string, signature: string)
    returns (one: seq<Event>, two: seq<Event>, told: seq<Event>)
    ensures one == events + [ToolStart(n, id, name, signature)] && two == one + [ToolDelta(n, id, name, arguments)]
    ensures told == two + [ToolDone(n, id, name, arguments, signature)] == events + Whole(n, id, name, arguments, signature)
  {
    one := events + [ToolStart(n, id, name, signature)];
    two := one + [ToolDelta(n, id, name, arguments)];
    told := two + [ToolDone(n, id, name, arguments, signature)];
  }

  lemma WholeCall(events: seq<Event>, n: int, id: string, name: string, arguments: string, signature: string)
    requires OnceEach(events) && CallAt(events, n).Unseen? && arguments != ""
    ensures var told := events + Whole(n, id, name, arguments, signature);
            && OnceEach(told)
            && (forall i :: CallAt(told, i) == if i == n then Closed(id, name, arguments) else CallAt(events, i))
            && (DoneSignature(events, n).None? ==>
                  forall i :: DoneSignature(told, i) == if i == n then Some(signature) else DoneSignature(events, i))
  {
    hide CallAt, OnceEach, Whole, DoneSignature;
    var one, two, told := WholeSteps(events, n, id, name, arguments, signature);
    var start, delta := ToolStart(n, id, name, signature), ToolDelta(n, id, name, arguments);
    var done := ToolDone(n, id, name, arguments, signature);
    forall i ensures CallAt(one, i) == if i == n then Open(id, name, "") else CallAt(events, i) {
      SnocCall(events, start, i);
    }
    assert "" + arguments == arguments;
    forall i ensures CallAt(two, i) == if i == n then Open(id, name, arguments) else CallAt(events, i) {
      SnocCall(one, delta, i);
    }
    forall i ensures CallAt(told, i) == if i == n then Closed(id, name, arguments) else CallAt(events, i) {
      SnocCall(two, done, i);
    }
    SnocOnceEach(events, start);
    SnocOnceEach(one, delta);
    SnocOnceEach(two, done);
    forall i ensures DoneSignature(events, n).None? ==>
                     DoneSignature(told, i) == if i == n then Some(signature) else DoneSignature(events, i)
    {
      SnocSignature(events, start, i);
      SnocSignature(one, delta, i);
      SnocSignature(two, done, i);
      SnocSignature(events, start, n);
      SnocSignature(one, delta, n);
    }
  }

  lemma WholeSays(events: seq<Event>, n: int, id: string, name: string, arguments: string, signature: string)
    requires IdsNonBlank(events) && !IsBlank(id)
    ensures var told := events + Whole(n, id, name, arguments, signature);
            && IdsNonBlank(told) && Started(told) == Started(events) + {n}
            && ToolOrder(told) == (if n in ToolOrder(events) then ToolOrder(events) else ToolOrder(events) + [n])
  {
    hide IdsNonBlank, IsBlank, ToolOrder, Started, Whole;
    var one, two, told := WholeSteps(events, n, id, name, arguments, signature);
    WholeStep(events, ToolStart(n, id, name, signature));
    WholeStep(one, ToolDelta(n, id, name, arguments));
    WholeStep(two, ToolDone(n, id, name, arguments, signature));
  }

  lemma WholeStep(events: seq<Event>, e: Event)
    requires IdsNonBlank(events) && e.IsTool() && !IsBlank(e.callID)
    ensures var told := events + [e];
            && IdsNonBlank(told) && Started(told) == Started(events) + (if e.ToolStart? then {e.index} else {})
            && ToolOrder(told) == (if e.index in ToolOrder(events) then ToolOrder(events) else ToolOrder(events) + [e.index])
  {
    hide IdsNonBlank, IsBlank, ToolOrder, Started;
    Snoc(events, e);
    SnocIDs(events, e);
  }

  /** The reader's choice of id and arguments. */
  lemma CallToldAs(part: Part, requestID: string, k: int)
    requires part.Calls()
    ensures var f := part.call.value; ToldAs(Closed(CallID(f, requestID, k), f.name, Arguments(f)), part, requestID, k)
  {
    TrimShape(part.call.value.id);
    TrimShape(part.call.value.args);
  }

  lemma CallTold(requestID: string, events: seq<Event>, part: Part, u: Upstream)
    requires Tells(requestID, events, u) && part.Calls()
    ensures Tells(requestID, events + PartEvents(part, requestID, |u.calls|), u.(calls := u.calls + [part]))
  {
    hide CallAt, OnceEach, IdsNonBlank, CallID, Arguments, IsBlank, Says, ToldAs, DoneSignature;
    var n, call := |u.calls|, part.call.value;
    CallIDNonBlank(call, requestID, n);
    ArgumentsNonEmpty(call);
    CallToldAs(part, requestID, n);
    WholeCall(events, n, CallID(call, requestID, n), call.name, Arguments(call), part.signature);
    WholeSays(events, n, CallID(call, requestID, n), call.name, Arguments(call), part.signature);
    var whole := Whole(n, CallID(call, requestID, n), call.name, Arguments(call), part.signature);
    assert PartEvents(part, requestID, n) == whole;
    SaysCalls(events, whole, u.said);
  }

  lemma ArgumentsNonEmpty(call: FunctionCall)
    ensures Arguments(call) != ""
  {}

  lemma PartTold(requestID: string, events: seq<Event>, part: Part, u: Upstream)
    requires Tells(requestID, events, u)
    ensures Tells(requestID, events + PartEvents(part, requestID, |u.calls|), HearPart(u, part))
    ensures |HearPart(u, part).calls| == |u.calls| + (if part.Calls() then 1 else 0)
    ensures HearPart(u, part).ended == u.ended && HearPart(u, part).said.usage == u.said.usage
  {
    hide CallsTold, Says, CallID, Arguments;
    if part.call.Some? {
      TrimShape(part.call.value.name);
    }
    if part.Speaks() {
      var e := if part.thought then ReasoningDelta(0, part.text, part.signature) else TextDelta(0, part.text);
      EventTold(requestID, events, e, u);
    } else if part.Calls() {
      CallTold(requestID, events, part, u);
    } else {
      assert events + [] == events;
      assert u.said.text + "" == u.said.text && u.said.reasoning + "" == u.said.reasoning && u.said.signature + "" == u.said.signature;
    }
  }

  lemma {:induction false} PartsTold(requestID: string, events: seq<Event>, parts: seq<Part>, u: Upstream)
    requires Tells(requestID, events, u)
    ensures Tells(requestID, events + PartsEvents(parts, requestID, |u.calls|), HearParts(u, parts))
    ensures |HearParts(u, parts).calls| == |u.calls| + |CallsOf(parts)|
    ensures HearParts(u, parts).ended == u.ended && HearParts(u, parts).said.usage == u.said.usage
  {
    hide Tells, PartEvents, HearPart;
    if parts == [] {
      assert events + [] == events;
    } else {
      var before, last := parts[..|parts| - 1], parts[|parts| - 1];
      PartsTold(requestID, events, before, u);
      var told := events + PartsEvents(before, requestID, |u.calls|);
      PartTold(requestID, told, last, HearParts(u, before));
      assert told + PartEvents(last, requestID, |u.calls| + |CallsOf(before)|) == events + PartsEvents(parts, requestID, |u.calls|);
    }
  }

  // ----- One chunk more -----

  /** Events that the reader passes on as they are, counting the Dones. */
  predicate PassedOn(events: seq<Event>) {
    forall e <- events :: !e.ResponseDone? && !e.UsageReport?
  }

  function Dones(events: seq<Event>): nat {
    if events == [] then 0 else Dones(events[..|events| - 1]) + if events[|events| - 1].ToolDone? then 1 else 0
  }

  lemma {:induction false} ReadPassedOn(r: Reader, events: seq<Event>)
    requires PassedOn(events)
    ensures ReadEvents(r, events) == r.(events := r.events + events, toolOffset := r.toolOffset + Dones(events))
  {
    if events == [] {
      assert r.events + [] == r.events;
    } else {
      ReadPassedOn(r, events[..|events| - 1]);
    }
  }

  lemma {:induction false} PartsPassedOn(parts: seq<Part>, requestID: string, offset: int)
    ensures PassedOn(PartsEvents(parts, requestID, offset))
    ensures Dones(PartsEvents(parts, requestID, offset)) == |CallsOf(parts)|
  {
    hide PartEvents, Dones, PassedOn;
    if parts == [] {
      NothingPassedOn();
    } else {
      var before, last := parts[..|parts| - 1], parts[|parts| - 1];
      PartsPassedOn(before, requestID, offset);
      DonesAppend(PartsEvents(before, requestID, offset), PartEvents(last, requestID, offset + |CallsOf(before)|));
      PartDones(last, requestID, offset + |CallsOf(before)|);
      PassedOnAppend(PartsEvents(before, requestID, offset), PartEvents(last, requestID, offset + |CallsOf(before)|));
    }
  }

  lemma NothingPassedOn()
    ensures PassedOn([]) && Dones([]) == 0
  {}

  lemma PassedOnAppend(a: seq<Event>, b: seq<Event>)
    requires PassedOn(a) && PassedOn(b)
    ensures PassedOn(a + b)
  {}

  lemma PartDones(part: Part, requestID: string, index: int)
    ensures PassedOn(PartEvents(part, requestID, index))
    ensures Dones(PartEvents(part, requestID, index)) == if part.Calls() then 1 else 0
  {
    if part.Calls() {
      var e := PartEvents(part, requestID, index);
      assert e[..2][..1] == e[..1] && e[..1][..0] == [];
      assert Dones(e[..1]) == 0;
      assert Dones(e[..2]) == 0;
    }
  }

  lemma {:induction false} DonesAppend(a: seq<Event>, b: seq<Event>)
    ensures Dones(a + b) == Dones(a) + Dones(b)
  {
    if b == [] {
      assert a + b == a;
    } else {
      assert (a + b)[..|a + b| - 1] == a + b[..|b| - 1];
      DonesAppend(a, b[..|b| - 1]);
    }
  }

  lemma {:induction false} ReadAppend(r: Reader, a: seq<Event>, b: seq<Event>)
    ensures ReadEvents(r, a + b) == ReadEvents(ReadEvents(r, a), b)
  {
    if b == [] {
      assert a + b == a;
    } else {
      assert (a + b)[..|a + b| - 1] == a + b[..|b| - 1];
      ReadAppend(r, a, b[..|b| - 1]);
    }
  }

  ghost predicate Hears(requestID: string, r: Reader, u: Upstream) {
    && Tells(requestID, r.events, u) && r.toolOffset == |u.calls| && r.usage == u.said.usage
    && (u.ended ==> r.terminated)
    && (r.status == Running && r.terminated ==> u.ended)
  }

  /** What the parts and a block of a chunk say. */
  function HearBody(u: Upstream, chunk: Chunk): Upstream {
    var v := HearParts(u, Spoken(chunk));
    v.(said := v.said.(refusal := v.said.refusal + Refuses(Blocked(chunk))))
  }

  lemma BlockIs(chunk: Chunk)
    ensures PartsOf(chunk) == Spoken(chunk) && (chunk.Blocks() <==> Blocked(chunk).Some?)
    ensures chunk.Blocks() ==> BlockMessage(chunk.block.value) == Refuses(Blocked(chunk))
    ensures !chunk.Blocks() ==> Refuses(Blocked(chunk)) == ""
  {
    if chunk.block.Some? {
      TrimShape(chunk.block.value.reason);
      TrimShape(chunk.block.value.message);
    }
  }

  lemma BodyTold(requestID: string, r: Reader, chunk: Chunk, u: Upstream)
    requires Hears(requestID, r, u)
    ensures var body := BodyEvents(chunk, requestID, r.toolOffset);
            var v := HearBody(u, chunk);
            && ReadEvents(r, body) == r.(events := r.events + body, toolOffset := |v.calls|)
            && |v.calls| == |u.calls| + |CallsOf(PartsOf(chunk))| && v.ended == u.ended && v.said.usage == u.said.usage
            && Tells(requestID, r.events + body, v)
  {
    hide Tells, CallsOf, ReadEvents, PartsEvents, BlockMessage, Dones, HearParts, Blocked, Refuses, PartsOf, Spoken;
    BlockIs(chunk);
    var parts := PartsOf(chunk);
    var told := PartsEvents(parts, requestID, r.toolOffset);
    PartsTold(requestID, r.events, parts, u);
    PartsPassedOn(parts, requestID, r.toolOffset);
    var v := HearParts(u, parts);
    if chunk.Blocks() {
      var e := RefusalDelta(0, BlockMessage(chunk.block.value));
      EventTold(requestID, r.events + told, e, v);
      DonesAppend(told, [e]);
      NoDone(e);
      ReadPassedOn(r, told + [e]);
      assert r.events + told + [e] == r.events + (told + [e]);
    } else {
      ReadPassedOn(r, told);
      assert told + [] == told;
      assert v.said.refusal + "" == v.said.refusal;
    }
  }

  lemma NoDone(e: Event)
    requires !e.ToolDone?
    ensures Dones([e]) == 0
  {
    assert [e][..0] == [];
  }

  lemma ChunkTold(requestID: string, r: Reader, chunk: Chunk, u: Upstream)
    requires Hears(requestID, r, u) && r.status == Running
    ensures Hears(requestID, ReadEvents(r, ChunkEvents(chunk, requestID, r.toolOffset)), HearChunk(u, chunk))
  {
    hide Tells, CallsOf, ReadEvents, BodyEvents, HearParts, EndOf, HearBody;
    var body := BodyEvents(chunk, requestID, r.toolOffset);
    var usage := if chunk.usage.IsZero() then [] else [UsageReport(chunk.usage)];
    var end := if EndOf(chunk).Some? then [ResponseDone("", EndOf(chunk).value)] else [];
    BodyTold(requestID, r, chunk, u);
    ReadAppend(r, body + usage, end);
    ReadAppend(r, body, usage);
    var r1 := ReadEvents(r, body);
    ReadFew(r1, usage);
    var r2 := ReadEvents(r1, usage);
    var v := HearBody(u, chunk);
    if usage != [] {
      EventTold(requestID, r1.events, usage[0], v);
    }
    ReadFew(r2, end);
    EndAgrees(chunk, u);
    var w := if usage != [] then HearEvent(v, usage[0]) else v;
    if end != [] {
      var reason := if r2.toolOffset > 0 && end[0].finishReason == "stop" then "tool_calls" else end[0].finishReason;
      EventTold(requestID, r2.events, ResponseDone("", reason), w);
    }
  }

  lemma ReadFew(r: Reader, events: seq<Event>)
    requires |events| <= 1
    ensures ReadEvents(r, events) == if events == [] then r else ReadEvent(r, events[0])
  {
    if events != [] {
      assert events[..0] == [];
    }
  }

  lemma EndIs(reason: string, called: bool)
    requires reason != ""
    ensures HeardEnd(reason, called) == if called && FinishReason(reason) == "stop" then "tool_calls" else FinishReason(reason)
  {
    assert |"length"| == 6 && |"stop"| == 4 && |"content_filter"| == 14 && |ToLower(reason)| == |reason|;
    assert reason == "STOP" ==> ToLower(reason) == "stop";
  }

  /** The finish a chunk tells, once the reader has seen the calls of earlier chunks. */
  lemma EndAgrees(chunk: Chunk, u: Upstream)
    requires |HearBody(u, chunk).calls| == |u.calls| + |CallsOf(PartsOf(chunk))|
    ensures var v := HearBody(u, chunk);
            var counted := v.(said := v.said.(usage := if chunk.usage == NO_USAGE then v.said.usage else chunk.usage));
            HearChunk(u, chunk) ==
            if EndOf(chunk).None? then counted
            else Finish(counted, counted.said,
                        if |v.calls| > 0 && EndOf(chunk).value == "stop" then "tool_calls" else EndOf(chunk).value)
  {
    hide HearParts, CallsOf, BlockMessage, FinishReason, HeardEnd, Refuses;
    BlockIs(chunk);
    var v := HearBody(u, chunk);
    assert |"content_filter"| == 14 && |"stop"| == 4;
    if chunk.candidates != [] && chunk.candidates[0].finishReason != "" {
      EndIs(chunk.candidates[0].finishReason, v.calls != []);
    }
  }

  // ----- The whole stream -----

  lemma BeginTells(requestID: string)
    ensures Hears(requestID, Begin(requestID), Silence(requestID))
  {
    hide Tells;
    var start, message := ResponseStart(requestID, 0, ""), MessageStart(0, "assistant");
    var nothing := Upstream(NOTHING_SAID, [], false);
    NothingTold(requestID);
    EventTold(requestID, [], start, nothing);
    EventTold(requestID, [] + [start], message, HearEvent(nothing, start));
    assert Begin(requestID).events == [] + [start] + [message];
    assert [] + [start] + [message] == [start, message];
  }

  lemma NothingTold(requestID: string)
    ensures Tells(requestID, [], Upstream(NOTHING_SAID, [], false))
  {}

  /** How the reader stands after its lines. */
  function StatusAfter(stop: Option<Line>): Status {
    match stop
    case None => Running
    case Some(DoneLine) => Stopped
    case Some(ErrorLine(_, _, _)) => StreamFailed
    case Some(_) => Aborted
  }

  /** Whatever a Gemini upstream sends, the canonical stream tells exactly what it said; the
      k-th call is the k-th index, started once and done once. */
  lemma {:induction false} GeminiTold(requestID: string, lines: seq<Line>)
    ensures Hears(requestID, Read(requestID, lines), Hear(requestID, lines))
    ensures Read(requestID, lines).status == StatusAfter(Stop(lines))
  {
    hide Tells, ReadEvents, ChunkEvents, HearChunk;
    if lines == [] {
      BeginTells(requestID);
    } else {
      var before, line := lines[..|lines| - 1], lines[|lines| - 1];
      GeminiTold(requestID, before);
      StopIsSome(before);
      var r := Read(requestID, before);
      if r.status == Running {
        if line.ChunkLine? {
          ChunkTold(requestID, r, line.chunk, Hear(requestID, before));
          ReadEventsKeepStatus(r, ChunkEvents(line.chunk, requestID, r.toolOffset));
        } else if line.ErrorLine? {
          var name := if line.status == "" then FormatInt(line.code) else line.status;
          var e := StreamError(Some(ErrorData(name, line.message)));
          EventTold(requestID, r.events, e, Hear(requestID, before));
        }
      }
    }
  }

  /** A Gemini stream is read with success exactly when "[DONE]" ends it, or when it just
      ends after a finish. */
  lemma SucceedsIff(requestID: string, lines: seq<Line>, scanError: bool)
    ensures Succeeds(Read(requestID, lines), scanError) <==>
            !scanError && (Stop(lines) == Some(DoneLine) || (Stop(lines) == None && Hear(requestID, lines).ended))
  {
    hide Read, Hear, Tells;
    GeminiTold(requestID, lines);
    DoneTerminates(requestID, lines);
  }

  lemma {:induction false} DoneTerminates(requestID: string, lines: seq<Line>)
    ensures Read(requestID, lines).status == Stopped ==> Read(requestID, lines).terminated
  {
    hide ReadEvents, ChunkEvents;
    if lines != [] {
      var before, line := lines[..|lines| - 1], lines[|lines| - 1];
      DoneTerminates(requestID, before);
      if line.ChunkLine? {
        ReadEventsKeepStatus(Read(requestID, before), ChunkEvents(line.chunk, requestID, Read(requestID, before).toolOffset));
      }
    }
  }

  // ----- Through the encoders -----

  lemma PrefixKeeps(events: seq<Event>, p: nat)
    requires p <= |events| && OnceEach(events) && IdsNonBlank(events)
    ensures OnceEach(events[..p]) && IdsNonBlank(events[..p])
  {
    forall q | 0 <= q < p ensures events[..p][..q] == events[..q] {}
  }

  /** What an encoder is told of a stream: everything before its first finish. */
  function BeforeEnd(events: seq<Event>): seq<Event> {
    if NoTerminal(events) then events else BeforeEnd(events[..|events| - 1])
  }

  lemma {:induction false} BeforeEndShape(events: seq<Event>)
    ensures BeforeEnd(events) <= events && NoTerminal(BeforeEnd(events))
    ensures BeforeEnd(events) != events ==> events[|BeforeEnd(events)|].IsTerminal()
  {
    if !NoTerminal(events) {
      var before, e := events[..|events| - 1], events[|events| - 1];
      BeforeEndShape(before);
      assert events == before + [e];
    }
  }

  predicate Errorless(events: seq<Event>) {
    forall e <- events :: !e.StreamError?
  }

  lemma {:induction false} ReadErrorless(r: Reader, events: seq<Event>)
    requires Errorless(r.events) && Errorless(events)
    ensures Errorless(ReadEvents(r, events).events)
  {
    if events != [] {
      ReadErrorless(r, events[..|events| - 1]);
      assert events[|events| - 1] in events;
    }
  }

  lemma {:induction false} PartsErrorless(parts: seq<Part>, requestID: string, offset: int)
    ensures Errorless(PartsEvents(parts, requestID, offset))
  {
    hide CallID, Arguments, CallsOf;
    if parts != [] {
      PartsErrorless(parts[..|parts| - 1], requestID, offset);
    }
  }

  /** A stream whose reader did not stop at an error tells none. */
  lemma {:induction false} NoErrorTold(requestID: string, lines: seq<Line>)
    ensures Read(requestID, lines).status != StreamFailed && Read(requestID, lines).status != Aborted ==>
              Errorless(Read(requestID, lines).events)
  {
    hide ReadEvents, PartsEvents, CallsOf;
    if lines != [] {
      NoErrorTold(requestID, lines[..|lines| - 1]);
      var r, line := Read(requestID, lines[..|lines| - 1]), lines[|lines| - 1];
      if r.status == Running && line.ChunkLine? {
        PartsErrorless(PartsOf(line.chunk), requestID, r.toolOffset);
        ReadEventsKeepStatus(r, ChunkEvents(line.chunk, requestID, r.toolOffset));
        ReadErrorless(r, ChunkEvents(line.chunk, requestID, r.toolOffset));
      }
    }
  }

  /** What a successful stream tells an encoder, and how it is ended: by its own finish,
      or by the driver's. */
  lemma SuccessTold(requestID: string, lines: seq<Line>, scanError: bool) returns (sent: seq<Event>)
    requires Succeeds(Read(requestID, lines), scanError)
    ensures var r := Read(requestID, lines);
            && sent == BeforeEnd(r.events) <= r.events && NoTerminal(sent) && OnceEach(sent) && IdsNonBlank(sent)
            && if sent == r.events then UsageOf(sent) == r.usage
               else |sent| < |r.events| && r.events[|sent|].ResponseDone?
  {
    hide Read, Hear, CallsTold, TextOf, RefusalOf, ReasoningOf, SignatureOf, UsageOf, OnceEach, IdsNonBlank, NoTerminal, BeforeEnd;
    var r := Read(requestID, lines);
    GeminiTold(requestID, lines);
    CallsAreOnce(requestID, r.events, Hear(requestID, lines).calls);
    NoErrorTold(requestID, lines);
    sent := BeforeEnd(r.events);
    BeforeEndShape(r.events);
    assert sent == r.events[..|sent|];
    PrefixKeeps(r.events, |sent|);
  }

  lemma UsageHeld(id: string, created: int, model: string, sent: seq<Event>)
    requires NoTerminal(sent)
    ensures ResponsesSpec.Encode(id, created, model, sent).usage == UsageOf(sent)
  {
    ResponsesMeaning.EncodeMeans(id, created, model, sent);
  }

  /** The driver's finish ends a stream that has not ended itself. */
  lemma DrivenOpen(id: string, created: int, model: string, sent: seq<Event>)
    requires NoTerminal(sent)
    ensures var s := ResponsesSpec.Encode(id, created, model, sent);
            ResponsesSpec.Finish(s, "", "stop", UsageOf(sent), ResponsesSpec.SortedKeys(s.tools.Keys)) ==
            ResponsesSpec.Encode(id, created, model, sent + [ResponseDone("", "stop")])
  {
    hide ResponsesSpec.Encode, ResponsesSpec.Step, ResponsesSpec.Finish, ResponsesGrammar.Live, UsageOf, NoTerminal;
    var s := ResponsesSpec.Encode(id, created, model, sent);
    ResponsesSpec.EncodeSnoc(id, created, model, sent, ResponseDone("", "stop"));
    ResponsesGrammar.RunLive(id, created, model, sent);
    UsageHeld(id, created, model, sent);
    LockStep.EndingRun(s, ResponseDone("", "stop"), UsageOf(sent));
  }

  /** It adds nothing to one that has. */
  lemma DrivenEnded(id: string, created: int, model: string, sent: seq<Event>, end: Event, rest: seq<Event>, usage: Usage)
    requires NoTerminal(sent) && end.ResponseDone?
    ensures var s := ResponsesSpec.Encode(id, created, model, sent + [end] + rest);
            ResponsesSpec.Finish(s, "", "stop", usage, ResponsesSpec.SortedKeys(s.tools.Keys)) ==
            ResponsesSpec.Encode(id, created, model, sent + [end])
  {
    hide ResponsesSpec.Encode, ResponsesSpec.Step, ResponsesSpec.Finish, ResponsesGrammar.Live, NoTerminal;
    ResponsesSpec.EncodeSnoc(id, created, model, sent, end);
    ResponsesGrammar.RunLive(id, created, model, sent);
    LockStep.EndingRun(ResponsesSpec.Encode(id, created, model, sent), end, usage);
    ResponsesGrammar.EncodeStops(id, created, model, sent + [end], rest);
  }

  /** Gemini to Responses: the client of a successful stream reads the same text, reasoning,
      usage and calls as the upstream told before its finish, or before "[DONE]" when it told
      none and the driver finishes the stream. */
  lemma GeminiToResponses(requestID: string, lines: seq<Line>, scanError: bool, id: string, created: int, model: string)
    requires Succeeds(Read(requestID, lines), scanError)
    ensures var r := Read(requestID, lines);
            var s := ResponsesSpec.Encode(id, created, model, r.events);
            var final := ResponsesSpec.Finish(s, "", "stop", r.usage, ResponsesSpec.SortedKeys(s.tools.Keys));
            var back := Responses.Read(final.frames);
            && back.status == Responses.Finished && back.usage == UsageOf(BeforeEnd(r.events))
            && RRT.SameMeaning(BeforeEnd(r.events), back.events)
  {
    hide Read, Hear, UsageOf, OnceEach, IdsNonBlank, NoTerminal, BeforeEnd, Succeeds;
    hide ResponsesSpec.Encode, ResponsesSpec.Finish, Responses.Read, RRT.SameMeaning;
    var sent := SuccessTold(requestID, lines, scanError);
    var r := Read(requestID, lines);
    var end := if sent == r.events then ResponseDone("", "stop") else r.events[|sent|];
    if sent == r.events {
      DrivenOpen(id, created, model, sent);
    } else {
      assert r.events == sent + [end] + r.events[|sent| + 1..];
      DrivenEnded(id, created, model, sent, end, r.events[|sent| + 1..], r.usage);
    }
    RRT.NonBlankRoundTrips(id, created, model, sent, end.status, end.finishReason);
  }

  lemma CallsAreOnce(requestID: string, events: seq<Event>, calls: seq<Part>)
    requires CallsTold(requestID, events, calls)
    ensures OnceEach(events) && IdsNonBlank(events)
  {}

  lemma AnthropicDriven(id: string, model: string, events: seq<Event>, sent: seq<Event>, usage: Usage)
    requires sent == BeforeEnd(events) <= events && NoTerminal(sent)
    requires if sent == events then UsageOf(sent) == usage else |sent| < |events| && events[|sent|].ResponseDone?
    ensures var end := if sent == events then ResponseDone("", "stop") else events[|sent|];
            AnthropicSpec.Finish(AnthropicSpec.Encode(id, model, events), "stop", usage) ==
            AnthropicSpec.Encode(id, model, sent + [end])
  {
    hide AnthropicSpec.Encode, UsageOf, NoTerminal, BeforeEnd;
    var end := if sent == events then ResponseDone("", "stop") else events[|sent|];
    var s := AnthropicSpec.Encode(id, model, sent);
    AnthropicSpec.EncodeSnoc(id, model, sent, end);
    AnthropicSpec.RunLive(id, model, sent);
    ART.EncodeHolds(id, model, sent);
    if sent == events {
      assert s.usage == usage;
    } else {
      assert events == sent + [end] + events[|sent| + 1..];
      AnthropicSpec.EncodeStops(id, model, sent + [end], events[|sent| + 1..]);
    }
  }

  /** Gemini to Anthropic: the interleaved text, reasoning and calls come back in order. */
  lemma GeminiToAnthropic(requestID: string, lines: seq<Line>, scanError: bool, id: string, model: string)
    requires Succeeds(Read(requestID, lines), scanError)
    ensures var r := Read(requestID, lines);
            var sent := BeforeEnd(r.events);
            var final := AnthropicSpec.Finish(AnthropicSpec.Encode(id, model, r.events), "stop", r.usage);
            var back := Anthropic.Close(Anthropic.Read(final.frames));
            && back.status == Anthropic.Finished
            && ART.ContentOf(back.events, true) == ART.ContentOf(sent, false)
            && SignatureOf(back.events) == SignatureOf(sent)
  {
    hide Read, Hear, SignatureOf, UsageOf, OnceEach, IdsNonBlank, NoTerminal, BeforeEnd, Succeeds;
    hide AnthropicSpec.Encode, AnthropicSpec.Finish, Anthropic.Read, Anthropic.Close, ART.ContentOf, ART.DoneAtMostOnce;
    var sent := SuccessTold(requestID, lines, scanError);
    var r := Read(requestID, lines);
    AnthropicDriven(id, model, r.events, sent, r.usage);
    OnceMeansOneDone(sent);
    var end := if sent == r.events then ResponseDone("", "stop") else r.events[|sent|];
    ART.AnthropicRoundTrips(id, model, sent, end.status, end.finishReason);
  }

  lemma OnceMeansOneDone(events: seq<Event>)
    requires OnceEach(events)
    ensures ART.DoneAtMostOnce(events)
  {
    hide OnceEach;
    forall p, q | 0 <= p < |events| && events[p].ToolDone? && 0 <= q < p && events[q].ToolDone? && events[q].index == events[p].index
      ensures false
    {
      assert OnceEach(events) && !CallAt(events[..p], events[p].index).Closed? by { OnceAt(events, p); }
      assert events[..q + 1] == events[..q] + [events[q]];
      SnocCall(events[..q], events[q], events[q].index);
      ClosedStays(events, events[q].index, q + 1, p);
    }
  }

  lemma OnceAt(events: seq<Event>, p: nat)
    requires OnceEach(events) && p < |events| && events[p].ToolDone?
    ensures !CallAt(events[..p], events[p].index).Closed?
  {}
}
