/** What every Responses stream becomes (internal/stream_convert.go:1035-1247), told from its
    frames alone, and what an output list says (internal/protocol/openai_responses.go:353-427). */
module ResponsesStream {
  import opened Canonical
  import opened ToolTracker
  import opened Gatherings
  import opened ResponsesFrames
  import opened ResponsesReader

  // ----- An output list -----

  function Joined<T>(items: seq<T>, f: T -> string): string {
    if items == [] then "" else Joined(items[..|items| - 1], f) + f(items[|items| - 1])
  }

  function SpokenIn(item: Item): string {
    if item.kind != Message then "" else Joined(item.content, (p: Part) => if p.OutputText? then p.text else "")
  }

  function RefusedIn(item: Item): string {
    if item.kind != Message then "" else Joined(item.content, (p: Part) => if p.Refusal? then p.refusal else "")
  }

  /** Its summary, then its text. */
  function ReasonedIn(item: Item): string {
    if item.kind != Reasoning then "" else
      Joined(item.summary, (p: Part) => if p.SummaryText? then p.text else "") +
      Joined(item.content, (p: Part) => if p.ReasoningText? then p.text else "")
  }

  /** The signature of the last reasoning item that has one. */
  function SignatureIn(output: seq<Item>): string {
    if output == [] then "" else
      var item := output[|output| - 1];
      if item.kind == Reasoning && item.encrypted != "" then item.encrypted else SignatureIn(output[..|output| - 1])
  }

  /** The calls, under their call ids or else their item ids. */
  function CallsIn(output: seq<Item>): seq<ToolCall> {
    if output == [] then [] else
      var item := output[|output| - 1];
      CallsIn(output[..|output| - 1]) +
      if item.kind != FunctionCall then []
      else [ToolCall(if Trim(item.callID) != "" then item.callID else if Trim(item.id) != "" then item.id else "",
                     item.name, item.arguments)]
  }

  lemma {:induction false} PiecesAreJoined(parts: seq<Part>, piece: Piece, f: Part -> string)
    requires forall p :: f(p) == PieceOf(p, piece)
    ensures Pieces(parts, piece) == Joined(parts, f)
  {
    if parts != [] {
      PiecesAreJoined(parts[..|parts| - 1], piece, f);
    }
  }

  lemma ItemSays(item: Item)
    ensures item.kind == Message ==>
              SpokenIn(item) == Pieces(item.content, SpokenPiece) && RefusedIn(item) == Pieces(item.content, RefusedPiece)
    ensures item.kind == Reasoning ==> ReasonedIn(item) == Pieces(item.summary, SummaryPiece) + Pieces(item.content, ReasoningPiece)
  {
    PiecesAreJoined(item.content, SpokenPiece, (p: Part) => if p.OutputText? then p.text else "");
    PiecesAreJoined(item.content, RefusedPiece, (p: Part) => if p.Refusal? then p.refusal else "");
    PiecesAreJoined(item.summary, SummaryPiece, (p: Part) => if p.SummaryText? then p.text else "");
    PiecesAreJoined(item.content, ReasoningPiece, (p: Part) => if p.ReasoningText? then p.text else "");
  }

  /** The loop of OpenAIResponsesResponseToCanonical gathers the output text, the refusals and
      the reasoning of its items in order, the last signature and all calls. */
  lemma {:induction false} ContentSays(output: seq<Item>)
    ensures ContentOf(output) ==
            Content(Joined(output, SpokenIn), Joined(output, RefusedIn), Joined(output, ReasonedIn), SignatureIn(output), CallsIn(output))
  {
    hide Pieces, SpokenIn, RefusedIn, ReasonedIn;
    if output != [] {
      var before, item := output[..|output| - 1], output[|output| - 1];
      ContentSays(before);
      ItemSays(item);
      ItemSilent(item);
      TrimShape(item.callID);
      TrimShape(item.id);
      var c := ContentOf(before);
      assert c.text + "" == c.text && c.refusal + "" == c.refusal && c.reasoning + "" == c.reasoning;
      assert c.calls + [] == c.calls;
    }
  }

  lemma ItemSilent(item: Item)
    ensures item.kind != Message ==> SpokenIn(item) == "" && RefusedIn(item) == ""
    ensures item.kind != Reasoning ==> ReasonedIn(item) == ""
  {}

  /** The finish reason of a terminal response; none for a status that is an error. */
  function FinishIn(resp: Response): Option<string> {
    if resp.status == "incomplete"
    then Some(if resp.incompleteReason == Some("content_filter") then "content_filter" else "length")
    else if resp.status !in {"completed", ""} then None
    else if CallsIn(resp.output) != [] then Some("tool_calls")
    else Some(if resp.status == "" then "" else "stop")
  }

  lemma TerminalSays(resp: Response)
    ensures ToCanonical(resp).Some? <==> FinishIn(resp).Some?
    ensures ToCanonical(resp).Some? ==>
              ToCanonical(resp).value == CanonicalResponse(resp.status, ContentOf(resp.output), FinishIn(resp).value, resp.usage)
  {
    ContentSays(resp.output);
    assert |"completed"| == 9 && |"incomplete"| == 10;
  }

  // ----- What the upstream says -----

  /** The frames after which nothing is read. */
  predicate Ends(b: Body) {
    b.Completed? || b.Incomplete? || b.Failed? || b.ErrorFrame? || b.Malformed?
  }

  /** The frames up to the first that ends the stream, which is the last of them. */
  function Heeded(frames: seq<Frame>): seq<Frame> {
    if frames == [] then [] else
      var before := Heeded(frames[..|frames| - 1]);
      if before != [] && Ends(before[|before| - 1].body) then before else before + [frames[|frames| - 1]]
  }

  predicate Any(frames: seq<Frame>, p: Body -> bool) {
    frames != [] && (p(frames[|frames| - 1].body) || Any(frames[..|frames| - 1], p))
  }

  predicate TextSeen(frames: seq<Frame>) {
    Any(frames, (b: Body) => b.OutputTextDelta?)
  }

  predicate RefusalSeen(frames: seq<Frame>) {
    Any(frames, (b: Body) => b.RefusalTextDelta?)
  }

  /** Reasoning was told, delta by delta or late by a finished item. */
  predicate ReasoningSeen(frames: seq<Frame>) {
    Any(frames, (b: Body) =>
      b.SummaryTextDelta? || b.ReasoningTextDelta? ||
      (b.ItemDone? && b.item.kind == Reasoning && (ReasonedIn(b.item) != "" || b.item.encrypted != "")))
  }

  /** The terminal response says what the deltas have not, and then ends the stream. */
  function HearTerminal(s: Said, resp: Response, before: seq<Frame>): Said {
    if FinishIn(resp).None? then s else
      s.(text := s.text + (if TextSeen(before) then "" else Joined(resp.output, SpokenIn)),
         refusal := s.refusal + (if RefusalSeen(before) then "" else Joined(resp.output, RefusedIn)),
         usage := if resp.usage == NO_USAGE then s.usage else resp.usage,
         notices := s.notices + [ResponseDone(resp.status, FinishIn(resp).value)])
  }

  function HearFrame(s: Said, b: Body, before: seq<Frame>): Said {
    match b
    case Created(resp) => s.(notices := s.notices + [ResponseStart(resp.id, resp.created, resp.model)])
    case OutputTextDelta(_, _, delta) => s.(text := s.text + delta)
    case RefusalTextDelta(_, _, delta) => s.(refusal := s.refusal + delta)
    case SummaryTextDelta(_, _, delta) => s.(reasoning := s.reasoning + delta)
    case ReasoningTextDelta(_, _, delta) => s.(reasoning := s.reasoning + delta)
    case ItemAdded(index, item, _) =>
      if item.kind == Message then s.(notices := s.notices + [MessageStart(index, item.role)]) else s
    case ItemDone(_, item, _) =>
      if item.kind != Reasoning then s else
        s.(reasoning := s.reasoning + (if ReasoningSeen(before) then "" else ReasonedIn(item)),
           signature := s.signature + item.encrypted)
    case Completed(resp) => HearTerminal(s, resp, before)
    case Incomplete(resp) => HearTerminal(s, resp, before)
    case ErrorFrame(code, message) => s.(notices := s.notices + [StreamError(Some(ErrorData(code, message)))])
    case _ => s
  }

  function Hear(frames: seq<Frame>): Said {
    if frames == [] then NOTHING_SAID else
      var before := frames[..|frames| - 1];
      HearFrame(Hear(before), frames[|frames| - 1].body, before)
  }

  // ----- What it says of calls -----

  /** The output indices of calls in the order of their first mention, and what was gathered. */
  datatype Calls = Calls(order: seq<int>, call: int -> Gathering) {
    function At(index: int, f: Gathering -> Gathering): Calls {
      Calls(if index in order then order else order + [index], i => if i == index then f(call(i)) else call(i))
    }
  }

  function Mentions(id: string, name: string): Gathering -> Gathering {
    (g: Gathering) => g.Mention(id, name, "")
  }

  function Feeds(id: string, delta: string): Gathering -> Gathering {
    (g: Gathering) => g.Mention(id, "", "").Feed(delta)
  }

  function Finishes(id: string, name: string, arguments: string): Gathering -> Gathering {
    (g: Gathering) => g.Mention(id, name, "").End(arguments)
  }

  /** The id a call goes by when the terminal response is read. */
  function KnownAs(g: Gathering): string {
    match g
    case NotSeen => ""
    case Gathering(id, _, _, _) => id
    case Gathered(_, _, _, _, known) => known
  }

  /** The first of these indices whose call goes by the id. */
  function Named(order: seq<int>, call: int -> Gathering, id: string): Option<int> {
    if order == [] then None else
      var n := |order| - 1;
      var first := Named(order[..n], call, id);
      if first.Some? then first else if KnownAs(call(order[n])) == id then Some(order[n]) else None
  }

  /** A call of the terminal response: one known by its id, or one more. */
  function HearListed(c: Calls, call: ToolCall): Calls {
    var known := if call.id == "" then None else Named(c.order, c.call, call.id);
    c.At(if known.Some? then known.value else |c.order|, Finishes(call.id, call.name, call.arguments))
  }

  function HearAllListed(c: Calls, calls: seq<ToolCall>): Calls {
    if calls == [] then c else HearListed(HearAllListed(c, calls[..|calls| - 1]), calls[|calls| - 1])
  }

  function EndAll(c: Calls): Calls {
    Calls(c.order, i => c.call(i).End(""))
  }

  function ItemName(item: Item, itemID: string): string {
    if item.callID != "" then item.callID else if item.id != "" then item.id else itemID
  }

  function HearCalls(c: Calls, b: Body): Calls {
    match b
    case ItemAdded(index, item, itemID) =>
      if item.kind != FunctionCall then c else c.At(index, Mentions(ItemName(item, itemID), item.name))
    case ArgumentsDelta(itemID, index, delta) => c.At(index, Feeds(itemID, delta))
    case ArgumentsDone(itemID, index, name, arguments) => c.At(index, Finishes(itemID, name, arguments))
    case ItemDone(index, item, itemID) =>
      if item.kind != FunctionCall then c else c.At(index, Finishes(ItemName(item, itemID), item.name, item.arguments))
    case Completed(resp) => if FinishIn(resp).None? then c else EndAll(HearAllListed(c, CallsIn(resp.output)))
    case Incomplete(resp) => if FinishIn(resp).None? then c else EndAll(HearAllListed(c, CallsIn(resp.output)))
    case _ => c
  }

  function CallsHeard(frames: seq<Frame>): Calls {
    if frames == [] then Calls([], i => NotSeen)
    else HearCalls(CallsHeard(frames[..|frames| - 1]), frames[|frames| - 1].body)
  }

  /** The terminal response that ended the stream, if one did. */
  function EndedBy(frames: seq<Frame>): Option<Response> {
    if frames == [] then None else
      match frames[|frames| - 1].body
      case Completed(resp) => Some(resp)
      case Incomplete(resp) => Some(resp)
      case _ => None
  }

  function StatusAfter(frames: seq<Frame>): Status {
    if frames == [] || !Ends(frames[|frames| - 1].body) then Running
    else if EndedBy(frames).Some? && FinishIn(EndedBy(frames).value).Some? then Finished else Aborted
  }

  // ----- The reader follows -----

  /** What was told. */
  ghost predicate Told(r: Reader, c: Calls, s: Said) {
    r.tools.Valid() && r.tools.order == c.order && HoldsAll(r.tools, r.events, c.call) && Says(r.events, s)
  }

  /** What was told by deltas so far. */
  ghost predicate Flagged(r: Reader, frames: seq<Frame>) {
    && (r.textSeen <==> TextSeen(frames)) && (r.refusalSeen <==> RefusalSeen(frames))
    && (r.reasoningSeen <==> ReasoningSeen(frames))
  }

  ghost predicate Follows(r: Reader, frames: seq<Frame>) {
    && Told(r, CallsHeard(frames), Hear(frames)) && r.status == StatusAfter(frames)
    && (r.status == Running ==> Flagged(r, frames))
    && r.usage == (if r.status == Finished then EndedBy(frames).value.usage else NO_USAGE)
  }

  lemma SayTold(r: Reader, c: Calls, s: Said, e: Event)
    requires Told(r, c, s) && !e.IsTool()
    ensures Told(Say(r, e), c, Saying(s, e))
  {
    hide HoldsAll, Says;
    OtherHolds(r.tools, r.events, e, c.call);
    SaysNext(r.events, e, s);
  }

  lemma FlagsTold(r: Reader, r': Reader, c: Calls, s: Said)
    requires Told(r, c, s) && r'.tools == r.tools && r'.events == r.events
    ensures Told(r', c, s)
  {}

  lemma IsTracked(r: Reader, c: Calls, s: Said, index: int)
    requires Told(r, c, s)
    ensures index in r.tools.byIndex <==> index in c.order
  {
    OrderMatchesMap(r.tools, r.events);
  }

  lemma StartTold(r: Reader, c: Calls, s: Said, index: int, id: string, name: string)
    requires Told(r, c, s)
    ensures Told(StartTool(r, index, id, name), c.At(index, Mentions(id, name)), s)
  {
    hide HoldsAll, Says;
    IsTracked(r, c, s, index);
    StartHolds(r.tools, r.events, index, id, name, "", c.call, c.At(index, Mentions(id, name)).call);
    SaysCalls(r.events, Opt(Start(r.tools, index, id, name, "").1), s);
  }

  lemma DeltaTold(r: Reader, c: Calls, s: Said, index: int, id: string, delta: string)
    requires Told(r, c, s)
    ensures Told(DeltaTool(r, index, id, delta), c.At(index, Feeds(id, delta)), s)
  {
    hide HoldsAll, Says;
    IsTracked(r, c, s, index);
    DeltaHolds(r.tools, r.events, index, id, "", delta, c.call, c.At(index, Feeds(id, delta)).call);
    SaysCalls(r.events, [Delta(r.tools, index, id, "", delta).1], s);
  }

  lemma DoneTold(r: Reader, c: Calls, s: Said, index: int, id: string, name: string, arguments: string)
    requires Told(r, c, s)
    ensures Told(DoneTool(r, index, id, name, arguments), c.At(index, Finishes(id, name, arguments)), s)
  {
    hide HoldsAll, Says;
    IsTracked(r, c, s, index);
    DoneHolds(r.tools, r.events, index, id, name, arguments, "", c.call, c.At(index, Finishes(id, name, arguments)).call);
    SaysCalls(r.events, Opt(Done(r.tools, index, id, name, arguments, "").1), s);
  }

  // ----- The terminal response -----

  /** The tracker finds the first call that goes by the id. */
  lemma HeldName(t: Tracker, events: seq<Event>, i: int, g: Gathering)
    requires Holds(t, events, i, g) && i in t.byIndex
    ensures t.byIndex[i].callID == KnownAs(g)
  {}

  lemma {:induction false} NamedIsFound(t: Tracker, events: seq<Event>, g: int -> Gathering, id: string, k: nat)
    requires HoldsAll(t, events, g) && t.Valid() && k <= |t.order| && Named(t.order[..k], g, id).None?
    ensures IndexFrom(t, id, k) == Named(t.order, g, id)
    decreases |t.order| - k
  {
    hide Tracks, Holds, KnownAs;
    if k < |t.order| {
      var j := t.order[k];
      HeldName(t, events, j, g(j));
      assert t.order[..k + 1] == t.order[..k] + [j] && t.order[..k + 1][..k] == t.order[..k];
      if KnownAs(g(j)) == id {
        NamedStays(t.order, g, id, k + 1);
      } else {
        NamedIsFound(t, events, g, id, k + 1);
      }
    } else {
      assert t.order[..k] == t.order;
    }
  }

  lemma {:induction false} NamedStays(order: seq<int>, g: int -> Gathering, id: string, k: nat)
    requires k <= |order| && Named(order[..k], g, id).Some?
    ensures Named(order, g, id) == Named(order[..k], g, id)
    decreases |order|
  {
    if k == |order| {
      assert order[..k] == order;
    } else {
      assert order[..|order| - 1][..k] == order[..k];
      NamedStays(order[..|order| - 1], g, id, k);
    }
  }

  lemma KnownIsNamed(r: Reader, c: Calls, s: Said, id: string)
    requires r.tools.Valid() && Told(r, c, s)
    ensures IndexForCallID(r.tools, id) == if id == "" then None else Named(c.order, c.call, id)
  {
    if id != "" {
      assert r.tools.order[..0] == [];
      NamedIsFound(r.tools, r.events, c.call, id, 0);
    }
  }

  lemma ListedTold(r: Reader, c: Calls, s: Said, call: ToolCall)
    requires r.tools.Valid() && Told(r, c, s)
    ensures Told(ReadCall(r, call), HearListed(c, call), s)
  {
    hide Told, StartTool, DoneTool, Named, IndexForCallID, Mentions, Finishes, Calls.At;
    KnownIsNamed(r, c, s, call.id);
    var known := IndexForCallID(r.tools, call.id);
    var index := if known.Some? then known.value else |r.tools.order|;
    assert |r.tools.order| == |c.order| by { SameOrder(r, c, s); }
    var mentioned := c.At(index, Mentions(call.id, call.name));
    StartTold(r, c, s, index, call.id, call.name);
    DoneTold(StartTool(r, index, call.id, call.name), mentioned, s, index, call.id, call.name, call.arguments);
    AtOnce(c, index, call.id, call.name, call.arguments);
    SameTold(ReadCall(r, call), mentioned.At(index, Finishes(call.id, call.name, call.arguments)), HearListed(c, call), s);
  }

  lemma SameOrder(r: Reader, c: Calls, s: Said)
    requires Told(r, c, s)
    ensures r.tools.order == c.order
  {}

  /** Mentioned and then done is done at once. */
  lemma AtOnce(c: Calls, index: int, id: string, name: string, arguments: string)
    ensures var twice, once := c.At(index, Mentions(id, name)).At(index, Finishes(id, name, arguments)), c.At(index, Finishes(id, name, arguments));
            once.order == twice.order && forall i :: once.call(i) == twice.call(i)
  {
    var twice, once := c.At(index, Mentions(id, name)).At(index, Finishes(id, name, arguments)), c.At(index, Finishes(id, name, arguments));
    forall i ensures once.call(i) == twice.call(i) {
      MentionedTwice(c.call(i), id, name, arguments);
    }
  }

  lemma MentionedTwice(g: Gathering, id: string, name: string, arguments: string)
    ensures g.Mention(id, name, "").Mention(id, name, "").End(arguments) == g.Mention(id, name, "").End(arguments)
  {}

  lemma SameTold(r: Reader, c: Calls, c': Calls, s: Said)
    requires Told(r, c, s) && c'.order == c.order && forall i :: c'.call(i) == c.call(i)
    ensures Told(r, c', s)
  {
    hide Tracks, Says, Holds;
  }

  lemma {:induction false} AllListedTold(r: Reader, c: Calls, s: Said, calls: seq<ToolCall>)
    requires r.tools.Valid() && Told(r, c, s)
    ensures Told(ReadCalls(r, calls), HearAllListed(c, calls), s)
  {
    hide Told, ReadCall, HearListed;
    if calls != [] {
      AllListedTold(r, c, s, calls[..|calls| - 1]);
      ListedTold(ReadCalls(r, calls[..|calls| - 1]), HearAllListed(c, calls[..|calls| - 1]), s, calls[|calls| - 1]);
    }
  }

  lemma EndAllTold(r: Reader, c: Calls, s: Said)
    requires r.tools.Valid() && Told(r, c, s)
    ensures Told(DoneTools(r), EndAll(c), s)
  {
    hide HoldsAll, Says;
    DoneAllHolds(r.tools, r.events, c.call, EndAll(c).call);
    DoneFirstIsTools(r.tools, |r.tools.order|);
    SaysCalls(r.events, DoneAll(r.tools).1, s);
  }

  lemma SpokenTold(r: Reader, c: Calls, s: Said, content: Content)
    requires r.tools.Valid() && Told(r, c, s)
    ensures Told(ReadSpoken(r, content), c,
                 s.(text := s.text + (if r.textSeen then "" else content.text),
                    refusal := s.refusal + (if r.refusalSeen then "" else content.refusal)))
  {
    hide Told;
    var s1 := s.(text := s.text + (if r.textSeen then "" else content.text));
    assert s.text + "" == s.text;
    var said := if content.text != "" && !r.textSeen then Say(r, TextDelta(0, content.text)).(textSeen := true) else r;
    assert Told(said, c, s1) by {
      if content.text != "" && !r.textSeen {
        SayTold(r, c, s, TextDelta(0, content.text));
        FlagsTold(Say(r, TextDelta(0, content.text)), said, c, s1);
      }
    }
    assert s1.refusal + "" == s1.refusal;
    if content.refusal != "" && !r.refusalSeen {
      var e := RefusalDelta(0, content.refusal);
      SayTold(said, c, s1, e);
      FlagsTold(Say(said, e), Say(said, e).(refusalSeen := true), c, Saying(s1, e));
    }
  }

  lemma UsageTold(r: Reader, c: Calls, s: Said, usage: Usage)
    requires r.tools.Valid() && Told(r, c, s)
    ensures Told(ReadUsage(r, usage), c, s.(usage := if usage == NO_USAGE then s.usage else usage))
  {
    hide Told;
    FlagsTold(r, r.(usage := usage), c, s);
    if !usage.IsZero() {
      SayTold(r.(usage := usage), c, s, UsageReport(usage));
    }
  }

  lemma TerminalTold(r: Reader, c: Calls, frames: seq<Frame>, s: Said, resp: Response)
    requires r.tools.Valid() && Told(r, c, s) && r.status == Running
    requires (r.textSeen <==> TextSeen(frames)) && (r.refusalSeen <==> RefusalSeen(frames))
    ensures var r' := ReadTerminal(r, resp);
            && Told(r', if FinishIn(resp).None? then c else EndAll(HearAllListed(c, CallsIn(resp.output))), HearTerminal(s, resp, frames))
            && r'.status == (if FinishIn(resp).Some? then Finished else Aborted)
            && r'.usage == if FinishIn(resp).Some? then resp.usage else r.usage
  {
    hide Told, FinishIn, ToCanonical, ContentOf, CallsIn, ReadCalls, HearAllListed, DoneTools, TextSeen, RefusalSeen, Joined, EndAll;
    TerminalSays(resp);
    ContentSays(resp.output);
    if FinishIn(resp).None? {
      FlagsTold(r, r.(status := Aborted), c, s);
    } else {
      var content, done := ContentOf(resp.output), ResponseDone(resp.status, FinishIn(resp).value);
      SpokenTold(r, c, s, content);
      var s1 := s.(text := s.text + (if r.textSeen then "" else content.text),
                   refusal := s.refusal + (if r.refusalSeen then "" else content.refusal));
      AllListedTold(ReadSpoken(r, content), c, s1, content.calls);
      var c1, called := HearAllListed(c, content.calls), ReadCalls(ReadSpoken(r, content), content.calls);
      EndAllTold(called, c1, s1);
      UsageTold(DoneTools(called), EndAll(c1), s1, resp.usage);
      var counted := ReadUsage(DoneTools(called), resp.usage);
      var s2 := s1.(usage := if resp.usage == NO_USAGE then s1.usage else resp.usage);
      SayTold(counted, EndAll(c1), s2, done);
      FlagsTold(Say(counted, done), ReadTerminal(r, resp), EndAll(c1), Saying(s2, done));
    }
  }

  // ----- One frame more -----

  lemma ReasoningTold(r: Reader, c: Calls, frames: seq<Frame>, s: Said, index: int, item: Item)
    requires r.tools.Valid() && Told(r, c, s) && (r.reasoningSeen <==> ReasoningSeen(frames)) && item.kind == Reasoning
    ensures Told(ReadReasoningDone(r, index, item), c,
                 s.(reasoning := s.reasoning + (if ReasoningSeen(frames) then "" else ReasonedIn(item)),
                    signature := s.signature + item.encrypted))
    ensures ReadReasoningDone(r, index, item).reasoningSeen == (r.reasoningSeen || ReasonedIn(item) != "" || item.encrypted != "")
  {
    hide Told, ReasoningSeen, ReasonedIn, Pieces;
    ItemSays(item);
    assert s.reasoning + "" == s.reasoning && s.signature + "" == s.signature;
    var e := ReasoningDelta(index, if r.reasoningSeen then "" else ReasonedIn(item), item.encrypted);
    SayTold(r, c, s, e);
    FlagsTold(Say(r, e), Say(r, e).(reasoningSeen := true), c, Saying(s, e));
  }

  lemma ItemDoneTold(r: Reader, c: Calls, frames: seq<Frame>, s: Said, index: int, item: Item, itemID: string)
    requires r.tools.Valid() && Told(r, c, s) && (r.reasoningSeen <==> ReasoningSeen(frames))
    ensures var b := ItemDone(index, item, itemID);
            Told(ReadItemDone(r, index, item, itemID), HearCalls(c, b), HearFrame(s, b, frames))
  {
    hide Told, ReasoningSeen, ReasonedIn, DoneTool, ReadReasoningDone, Finishes, Calls.At;
    if item.kind == Reasoning {
      ReasoningTold(r, c, frames, s, index, item);
    } else if item.kind == FunctionCall {
      DoneTold(r, c, s, index, ItemName(item, itemID), item.name, item.arguments);
    }
  }

  predicate IsCall(b: Body) {
    (b.ItemAdded? && b.item.kind == FunctionCall) || b.ArgumentsDelta? || b.ArgumentsDone?
  }

  lemma CallTold(r: Reader, c: Calls, frames: seq<Frame>, s: Said, b: Body)
    requires r.tools.Valid() && Told(r, c, s) && r.status == Running && IsCall(b)
    ensures Told(ReadFrame(r, b), HearCalls(c, b), HearFrame(s, b, frames))
  {
    hide Told, StartTool, DeltaTool, DoneTool, Mentions, Feeds, Finishes, Calls.At, ReadTerminal;
    match b {
      case ItemAdded(index, item, itemID) => StartTold(r, c, s, index, ItemName(item, itemID), item.name);
      case ArgumentsDelta(itemID, index, delta) => DeltaTold(r, c, s, index, itemID, delta);
      case ArgumentsDone(itemID, index, name, arguments) => DoneTold(r, c, s, index, itemID, name, arguments);
    }
  }

  /** The event a frame tells that is about no call. */
  function Word(b: Body): Option<Event> {
    match b
    case Created(resp) => Some(ResponseStart(resp.id, resp.created, resp.model))
    case OutputTextDelta(_, index, delta) => Some(TextDelta(index, delta))
    case RefusalTextDelta(_, index, delta) => Some(RefusalDelta(index, delta))
    case SummaryTextDelta(_, index, delta) => Some(ReasoningDelta(index, delta, ""))
    case ReasoningTextDelta(_, index, delta) => Some(ReasoningDelta(index, delta, ""))
    case ItemAdded(index, item, _) => if item.kind == Message then Some(MessageStart(index, item.role)) else None
    case ErrorFrame(code, message) => Some(StreamError(Some(ErrorData(code, message))))
    case _ => None
  }

  lemma WordTold(r: Reader, c: Calls, frames: seq<Frame>, s: Said, b: Body)
    requires r.tools.Valid() && Told(r, c, s) && r.status == Running
    requires !IsCall(b) && !b.ItemDone? && !b.Completed? && !b.Incomplete?
    ensures Told(ReadFrame(r, b), HearCalls(c, b), HearFrame(s, b, frames))
  {
    hide Told, StartTool, DeltaTool, DoneTool, ReadTerminal;
    assert s.signature + "" == s.signature;
    if Word(b).Some? {
      SayTold(r, c, s, Word(b).value);
      FlagsTold(Say(r, Word(b).value), ReadFrame(r, b), c, Saying(s, Word(b).value));
    } else {
      FlagsTold(r, ReadFrame(r, b), c, s);
    }
  }

  lemma FrameTold(r: Reader, c: Calls, frames: seq<Frame>, s: Said, b: Body)
    requires r.tools.Valid() && Told(r, c, s) && r.status == Running && Flagged(r, frames)
    ensures Told(ReadFrame(r, b), HearCalls(c, b), HearFrame(s, b, frames))
  {
    hide Told, TextSeen, RefusalSeen, ReasoningSeen, ReadTerminal, HearTerminal, FinishIn, ReadItemDone, HearAllListed, EndAll, CallsIn;
    if b.Completed? || b.Incomplete? {
      TerminalTold(r, c, frames, s, b.response);
    } else if b.ItemDone? {
      hide HearCalls, HearFrame;
      ItemDoneTold(r, c, frames, s, b.outputIndex, b.item, b.itemID);
    } else if IsCall(b) {
      hide ReadFrame, HearCalls, HearFrame;
      CallTold(r, c, frames, s, b);
    } else {
      hide ReadFrame, HearCalls, HearFrame;
      WordTold(r, c, frames, s, b);
    }
  }

  lemma AnyNext(frames: seq<Frame>, f: Frame, p: Body -> bool)
    ensures Any(frames + [f], p) <==> Any(frames, p) || p(f.body)
  {
    assert (frames + [f])[..|frames|] == frames && (frames + [f])[|frames|] == f;
  }

  lemma SeenNext(frames: seq<Frame>, f: Frame)
    ensures TextSeen(frames + [f]) <==> TextSeen(frames) || f.body.OutputTextDelta?
    ensures RefusalSeen(frames + [f]) <==> RefusalSeen(frames) || f.body.RefusalTextDelta?
    ensures var b := f.body;
            ReasoningSeen(frames + [f]) <==>
            ReasoningSeen(frames) || b.SummaryTextDelta? || b.ReasoningTextDelta? ||
            (b.ItemDone? && b.item.kind == Reasoning && (ReasonedIn(b.item) != "" || b.item.encrypted != ""))
  {
    hide Any, ReasonedIn;
    AnyNext(frames, f, (b: Body) => b.OutputTextDelta?);
    AnyNext(frames, f, (b: Body) => b.RefusalTextDelta?);
    AnyNext(frames, f, (b: Body) =>
      b.SummaryTextDelta? || b.ReasoningTextDelta? ||
      (b.ItemDone? && b.item.kind == Reasoning && (ReasonedIn(b.item) != "" || b.item.encrypted != "")));
  }

  lemma FlagsFollow(r: Reader, frames: seq<Frame>, f: Frame)
    requires r.tools.Valid() && r.status == Running && Flagged(r, frames) && !Ends(f.body)
    ensures var r' := ReadFrame(r, f.body); r'.status == Running && r'.usage == r.usage && Flagged(r', frames + [f])
  {
    hide TextSeen, RefusalSeen, ReasoningSeen, ReasonedIn, Start, Delta, Done, ReadTerminal, Pieces;
    SeenNext(frames, f);
    if f.body.ItemDone? && f.body.item.kind == Reasoning {
      ItemSays(f.body.item);
    }
  }

  lemma HearNext(frames: seq<Frame>, f: Frame)
    ensures Hear(frames + [f]) == HearFrame(Hear(frames), f.body, frames)
    ensures CallsHeard(frames + [f]) == HearCalls(CallsHeard(frames), f.body)
  {
    hide HearFrame, HearCalls;
    assert (frames + [f])[..|frames|] == frames && (frames + [f])[|frames|] == f;
  }

  /** One frame of a stream that has not ended. */
  lemma FrameFollows(r: Reader, frames: seq<Frame>, f: Frame)
    requires r.tools.Valid() && Follows(r, frames) && r.status == Running
    ensures Follows(ReadFrame(r, f.body), frames + [f])
  {
    hide Told, Flagged, ReadFrame, ReadTerminal, Hear, CallsHeard, HearFrame, HearCalls, FinishIn;
    HearNext(frames, f);
    var c, s, more := CallsHeard(frames), Hear(frames), frames + [f];
    FrameTold(r, c, frames, s, f.body);
    assert more[|frames|] == f;
    if !Ends(f.body) {
      FlagsFollow(r, frames, f);
    } else {
      EndFollows(r, frames, f.body);
    }
  }

  lemma EndFollows(r: Reader, frames: seq<Frame>, b: Body)
    requires r.tools.Valid() && Told(r, CallsHeard(frames), Hear(frames)) && Flagged(r, frames) && r.status == Running && Ends(b)
    ensures var r' := ReadFrame(r, b);
            if (b.Completed? || b.Incomplete?) && FinishIn(b.response).Some?
            then r'.status == Finished && r'.usage == b.response.usage
            else r'.status == Aborted && r'.usage == r.usage
  {
    hide Told, ReadTerminal, Hear, CallsHeard, FinishIn, HearAllListed, EndAll, CallsIn, HearTerminal, TextSeen, RefusalSeen, ReasoningSeen;
    if b.Completed? || b.Incomplete? {
      TerminalTold(r, CallsHeard(frames), frames, Hear(frames), b.response);
    }
  }

  // ----- The whole stream -----

  /** What is read is what is heeded, and the reader follows it. */
  lemma {:induction false} ReadFollows(frames: seq<Frame>)
    ensures Read(frames) == Read(Heeded(frames)) && Follows(Read(frames), Heeded(frames))
  {
    hide Follows, ReadFrame;
    if frames == [] {
      StartFollows();
    } else {
      var before, f := Heeded(frames[..|frames| - 1]), frames[|frames| - 1];
      ReadFollows(frames[..|frames| - 1]);
      var r := Read(before);
      RunsUnlessEnded(r, before);
      if r.status == Running {
        FrameFollows(r, before, f);
        ReadSnoc(before, f);
      } else {
        StoppedReads(r, f.body);
      }
    }
  }

  lemma RunsUnlessEnded(r: Reader, frames: seq<Frame>)
    requires Follows(r, frames)
    ensures r.status == Running <==> frames == [] || !Ends(frames[|frames| - 1].body)
  {}

  lemma StartFollows()
    ensures Follows(START, [])
  {
    TracksEmpty();
  }

  /** Every Responses stream, whatever it contains, is told as it was heard, up to the frame
      that ends it: the words of its deltas, or else of its terminal response; reasoning late
      if it came late; the usage and the finish of the terminal response; and each call as it
      was gathered, started at most once, and done once when it ended. */
  lemma ResponsesTold(frames: seq<Frame>)
    ensures var heeded := Heeded(frames);
            var r := Read(frames);
            && r.status == StatusAfter(heeded) && Says(r.events, Hear(heeded))
            && r.usage == (if r.status == Finished then EndedBy(heeded).value.usage else NO_USAGE)
            && ToolOrder(r.events) == CallsHeard(heeded).order
            && (forall i :: var g := CallsHeard(heeded).call(i);
                  match g
                  case NotSeen => CallAt(r.events, i).Unseen?
                  case Gathering(_, _, _, text) => CallAt(r.events, i).Open? && CallAt(r.events, i).arguments == text
                  case Gathered(_, _, _, _, _) => IsDone(r.events, i, g))
            && (r.status == Finished ==> forall i :: !CallsHeard(heeded).call(i).Gathering?)
  {
    hide Read, HoldsAll, Says, CallAt, CallsHeard, Hear, Heeded, IsDone;
    ReadFollows(frames);
    var heeded, r := Heeded(frames), Read(frames);
    var g := CallsHeard(heeded).call;
    HeldOrder(r, g);
    forall i ensures match g(i)
                     case NotSeen => CallAt(r.events, i).Unseen?
                     case Gathering(_, _, _, text) => CallAt(r.events, i).Open? && CallAt(r.events, i).arguments == text
                     case Gathered(_, _, _, _, _) => IsDone(r.events, i, g(i))
    {
      HeldCall(r, g, i);
    }
    if r.status == Finished {
      AllEnded(heeded);
    }
  }

  lemma HeldOrder(r: Reader, g: int -> Gathering)
    requires HoldsAll(r.tools, r.events, g)
    ensures r.tools.order == ToolOrder(r.events)
  {}

  lemma HeldCall(r: Reader, g: int -> Gathering, i: int)
    requires HoldsAll(r.tools, r.events, g)
    ensures match g(i)
            case NotSeen => CallAt(r.events, i).Unseen?
            case Gathering(_, _, _, text) => CallAt(r.events, i).Open? && CallAt(r.events, i).arguments == text
            case Gathered(_, _, _, _, _) => IsDone(r.events, i, g(i))
  {
    hide CallAt, DoneSignature, IsDone;
    assert Holds(r.tools, r.events, i, g(i));
    HoldsCall(r.tools, r.events, i, g(i));
    if g(i).Gathered? {
      OnlyDone(r.events, i, g(i));
    }
  }

  lemma AllEnded(frames: seq<Frame>)
    requires StatusAfter(frames) == Finished
    ensures forall i :: !CallsHeard(frames).call(i).Gathering?
  {
    hide HearAllListed;
    var before, resp := CallsHeard(frames[..|frames| - 1]), EndedBy(frames).value;
    EndAllEnds(HearAllListed(before, CallsIn(resp.output)));
    assert CallsHeard(frames) == EndAll(HearAllListed(before, CallsIn(resp.output)));
  }

  lemma EndAllEnds(c: Calls)
    ensures forall i :: !EndAll(c).call(i).Gathering?
  {
    forall i ensures !EndAll(c).call(i).Gathering? {
      assert EndAll(c).call(i) == c.call(i).End("");
    }
  }
}
