/** What the Gemini history conversions keep (internal/protocol/gemini.go:378-494, 552-626):
    responses are matched to earlier calls of their name, each to one of its own, and writing a
    history to Gemini and reading it back only tidies it. */
module GeminiHistoryTrip {
  import opened Canonical
  import opened GeminiHistory

  // ----- Calls and responses of a history -----

  function CallIDs(parts: seq<Part>, name: string): seq<string> {
    if parts == [] then [] else
      var last := parts[|parts| - 1];
      CallIDs(parts[..|parts| - 1], name) + if last.ToolCall? && last.name == name then [last.id] else []
  }

  function ResponseIDs(parts: seq<Part>, name: string): seq<string> {
    if parts == [] then [] else
      var last := parts[|parts| - 1];
      ResponseIDs(parts[..|parts| - 1], name) + if last.ToolResponse? && last.name == name then [last.id] else []
  }

  lemma SnocIDs(parts: seq<Part>, part: Part, name: string)
    ensures CallIDs(parts + [part], name) ==
            if part.ToolCall? && part.name == name then CallIDs(parts, name) + [part.id] else CallIDs(parts, name)
    ensures ResponseIDs(parts + [part], name) ==
            if part.ToolResponse? && part.name == name then ResponseIDs(parts, name) + [part.id] else ResponseIDs(parts, name)
  {
    assert (parts + [part])[..|parts|] == parts;
  }

  /** Text may join the part before it, but calls and responses are as if it did not. */
  lemma JoinIDs(seen: seq<Part>, parts: seq<Part>, part: Part, name: string)
    ensures CallIDs(seen + Join(parts, part), name) == CallIDs(seen + parts + [part], name)
    ensures ResponseIDs(seen + Join(parts, part), name) == ResponseIDs(seen + parts + [part], name)
  {
    SnocIDs(seen + parts, part, name);
    if parts != [] && Mergeable(parts[|parts| - 1], part) {
      var before, last := parts[..|parts| - 1], parts[|parts| - 1];
      var merged := Text(part.thought, last.text + part.text, "");
      assert seen + parts == seen + before + [last];
      assert seen + Join(parts, part) == seen + before + [merged];
      SnocIDs(seen + before, last, name);
      SnocIDs(seen + before, merged, name);
    } else {
      assert seen + Join(parts, part) == seen + parts + [part];
    }
  }

  /** The ids that wait under a name are those of its calls that have no response yet. */
  ghost predicate Waits(pending: Pending, seen: seq<Part>) {
    forall name: string ::
      multiset(CallIDs(seen, name)) == multiset(ResponseIDs(seen, name)) + multiset(Of(pending, name))
  }

  /** At every point, the responses under a name are some of the calls under it before. */
  ghost predicate Matched(parts: seq<Part>) {
    forall k: nat, name: string | k <= |parts| ::
      multiset(ResponseIDs(parts[..k], name)) <= multiset(CallIDs(parts[..k], name))
  }

  // ----- The resolver -----

  lemma TakeMoves(pending: Pending, id: string, name: string)
    requires Take(pending, id, name).0.Some?
    ensures var (taken, rest) := Take(pending, id, name);
            && (forall other: string :: Of(rest, other) == Of(pending, other) || other == name)
            && multiset(Of(pending, name)) == multiset(Of(rest, name)) + multiset{taken.value}
            && (!IsBlank(id) ==> taken.value == Trim(id))
            && (IsBlank(id) ==> Of(pending, name) == [taken.value] + Of(rest, name))
  {
    hide IsBlank, Trim, IndexOf;
    var ids := Of(pending, name);
    var i := if IsBlank(id) then 0 else IndexOf(ids, Trim(id));
    var rest := Take(pending, id, name).1;
    assert Of(rest, name) == ids[..i] + ids[i + 1..];
    TakenOut(ids, i);
  }

  lemma TakenOut(ids: seq<string>, i: nat)
    requires i < |ids|
    ensures multiset(ids) == multiset(ids[..i] + ids[i + 1..]) + multiset{ids[i]}
    ensures i == 0 ==> ids == [ids[0]] + (ids[..0] + ids[1..])
  {
    assert ids == ids[..i] + [ids[i]] + ids[i + 1..];
  }

  lemma TakeFindsIff(pending: Pending, id: string, name: string)
    ensures Take(pending, id, name).0.Some? <==>
            if IsBlank(id) then Of(pending, name) != [] else Trim(id) in multiset(Of(pending, name))
  {}

  lemma CallWaits(pending: Pending, seen: seq<Part>, call: Part)
    requires Waits(pending, seen) && call.ToolCall?
    ensures Waits(Add(pending, call.id, call.name), seen + [call])
  {
    hide CallIDs, ResponseIDs;
    forall name: string
      ensures var p := Add(pending, call.id, call.name);
              multiset(CallIDs(seen + [call], name)) == multiset(ResponseIDs(seen + [call], name)) + multiset(Of(p, name))
    {
      SnocIDs(seen, call, name);
    }
  }

  lemma ResponseWaits(pending: Pending, seen: seq<Part>, id: string, response: Part)
    requires Waits(pending, seen) && response.ToolResponse?
    requires Take(pending, id, response.name).0 == Some(response.id)
    ensures Waits(Take(pending, id, response.name).1, seen + [response])
  {
    hide CallIDs, ResponseIDs, Take, Of;
    TakeMoves(pending, id, response.name);
    forall name: string
      ensures var p := Take(pending, id, response.name).1;
              multiset(CallIDs(seen + [response], name)) == multiset(ResponseIDs(seen + [response], name)) + multiset(Of(p, name))
    {
      SnocIDs(seen, response, name);
    }
  }

  lemma OtherWaits(pending: Pending, seen: seq<Part>, parts: seq<Part>, part: Part)
    requires Waits(pending, seen + parts) && !part.ToolCall? && !part.ToolResponse?
    ensures Waits(pending, seen + Join(parts, part))
  {
    hide CallIDs, ResponseIDs, Of;
    forall name: string
      ensures multiset(CallIDs(seen + Join(parts, part), name)) == multiset(ResponseIDs(seen + Join(parts, part), name)) + multiset(Of(pending, name))
    {
      JoinIDs(seen, parts, part, name);
      SnocIDs(seen + parts, part, name);
    }
  }

  lemma MatchedMore(pending: Pending, parts: seq<Part>, part: Part)
    requires Matched(parts) && Waits(pending, parts + [part])
    ensures Matched(parts + [part])
  {
    hide CallIDs, ResponseIDs, Of;
    var more := parts + [part];
    forall k: nat, name: string | k <= |more|
      ensures multiset(ResponseIDs(more[..k], name)) <= multiset(CallIDs(more[..k], name))
    {
      if k <= |parts| {
        assert more[..k] == parts[..k];
      } else {
        assert more[..k] == more;
      }
    }
  }

  lemma MatchedPrefix(parts: seq<Part>, n: nat)
    requires Matched(parts) && n <= |parts|
    ensures Matched(parts[..n])
  {
    hide CallIDs, ResponseIDs;
    forall k: nat, name: string | k <= n
      ensures multiset(ResponseIDs(parts[..n][..k], name)) <= multiset(CallIDs(parts[..n][..k], name))
    {
      assert parts[..n][..k] == parts[..k];
    }
  }

  lemma MatchedJoin(pending: Pending, seen: seq<Part>, parts: seq<Part>, part: Part)
    requires Matched(seen + parts) && Waits(pending, seen + Join(parts, part))
    ensures Matched(seen + Join(parts, part))
  {
    hide Matched, Waits, Mergeable;
    var joined := seen + Join(parts, part);
    if parts != [] && Mergeable(parts[|parts| - 1], part) {
      var n := |seen + parts| - 1;
      MatchedPrefix(seen + parts, n);
      assert joined == (seen + parts)[..n] + [joined[n]];
      MatchedMore(pending, (seen + parts)[..n], joined[n]);
    } else {
      assert joined == seen + parts + [part];
      MatchedMore(pending, seen + parts, part);
    }
  }

  // ----- Reading -----

  lemma PartMatches(r: Reading, seen: seq<Part>, part: GeminiPart, messageIndex: int, partIndex: int)
    requires r.Parsed? && Waits(r.pending, seen + r.parts) && Matched(seen + r.parts)
    requires ReadPart(r, part, messageIndex, partIndex).Parsed?
    ensures var r' := ReadPart(r, part, messageIndex, partIndex);
            Waits(r'.pending, seen + r'.parts) && Matched(seen + r'.parts)
  {
    hide Waits, Matched, Take, GivenID, IsAudio, Join;
    var r' := ReadPart(r, part, messageIndex, partIndex);
    if part.call.Some? || part.response.Some? {
      var last := r'.parts[|r.parts|];
      assert seen + r'.parts == seen + r.parts + [last];
      if part.call.Some? {
        CallWaits(r.pending, seen + r.parts, last);
      } else {
        ResponseWaits(r.pending, seen + r.parts, part.response.value.id, last);
      }
      MatchedMore(r'.pending, seen + r.parts, last);
    } else {
      var other := if part.inlineData.Some?
                   then Media(IsAudio(part.inlineData.value.mimeType), part.inlineData.value.mimeType, part.inlineData.value.data, part.signature)
                   else Text(part.thought, part.text, part.signature);
      assert r'.parts == Join(r.parts, other) by { JoinOther(r.parts, other); }
      OtherWaits(r.pending, seen, r.parts, other);
      MatchedJoin(r'.pending, seen, r.parts, other);
    }
  }

  lemma JoinOther(parts: seq<Part>, part: Part)
    ensures !part.Text? ==> Join(parts, part) == parts + [part]
  {}

  /** Every response that is read is matched to an earlier call of its name, no two to the same:
      after any accepted message, with whatever came before. */
  lemma {:induction false} ResponsesAreMatched(pending: Pending, seen: seq<Part>, parts: seq<GeminiPart>, messageIndex: int)
    requires Waits(pending, seen) && Matched(seen)
    requires ReadParts(pending, parts, messageIndex).Parsed?
    ensures var r := ReadParts(pending, parts, messageIndex);
            Waits(r.pending, seen + r.parts) && Matched(seen + r.parts)
  {
    hide Waits, Matched, ReadPart;
    if parts == [] {
      assert seen + [] == seen;
    } else {
      var n := |parts| - 1;
      assert ReadParts(pending, parts[..n], messageIndex).Parsed? by { ParsedBefore(pending, parts, messageIndex); }
      ResponsesAreMatched(pending, seen, parts[..n], messageIndex);
      PartMatches(ReadParts(pending, parts[..n], messageIndex), seen, parts[n], messageIndex, n);
    }
  }

  lemma ParsedBefore(pending: Pending, parts: seq<GeminiPart>, messageIndex: int)
    requires parts != [] && ReadParts(pending, parts, messageIndex).Parsed?
    ensures ReadParts(pending, parts[..|parts| - 1], messageIndex).Parsed?
  {}

  /** No response under the name brings an id. */
  predicate WithoutIDs(parts: seq<GeminiPart>, name: string) {
    forall p <- parts :: p.call.None? && p.response.Some? && Trim(p.response.value.name) == name ==> IsBlank(p.response.value.id)
  }

  /** First in, first out: responses without ids take the calls of their name in order, from the
      first that is still without one. */
  lemma {:induction false} ResponsesAreInOrder(pending: Pending, seen: seq<Part>, parts: seq<GeminiPart>, messageIndex: int, name: string)
    requires CallIDs(seen, name) == ResponseIDs(seen, name) + Of(pending, name)
    requires ReadParts(pending, parts, messageIndex).Parsed? && WithoutIDs(parts, name)
    ensures var r := ReadParts(pending, parts, messageIndex);
            CallIDs(seen + r.parts, name) == ResponseIDs(seen + r.parts, name) + Of(r.pending, name)
  {
    hide ReadPart, CallIDs, ResponseIDs, Of;
    if parts == [] {
      assert seen + [] == seen;
    } else {
      var n := |parts| - 1;
      ParsedBefore(pending, parts, messageIndex);
      assert parts[n] in parts && forall p :: p in parts[..n] ==> p in parts;
      ResponsesAreInOrder(pending, seen, parts[..n], messageIndex, name);
      PartInOrder(ReadParts(pending, parts[..n], messageIndex), seen, parts[n], messageIndex, n, name);
    }
  }

  lemma PartInOrder(r: Reading, seen: seq<Part>, part: GeminiPart, messageIndex: int, partIndex: int, name: string)
    requires r.Parsed? && CallIDs(seen + r.parts, name) == ResponseIDs(seen + r.parts, name) + Of(r.pending, name)
    requires ReadPart(r, part, messageIndex, partIndex).Parsed? && WithoutIDs([part], name)
    ensures var r' := ReadPart(r, part, messageIndex, partIndex);
            CallIDs(seen + r'.parts, name) == ResponseIDs(seen + r'.parts, name) + Of(r'.pending, name)
  {
    hide Take, GivenID, IsAudio, Join, CallIDs, ResponseIDs, Of, IsBlank, Trim;
    var r' := ReadPart(r, part, messageIndex, partIndex);
    assert part in [part];
    if part.call.Some? {
      CallInOrder(r.pending, seen + r.parts, r'.parts[|r.parts|], name);
      assert seen + r'.parts == seen + r.parts + [r'.parts[|r.parts|]];
    } else if part.response.Some? {
      ResponseInOrder(r.pending, seen + r.parts, part.response.value.id, r'.parts[|r.parts|], name);
      assert seen + r'.parts == seen + r.parts + [r'.parts[|r.parts|]];
    } else {
      var other := if part.inlineData.Some?
                   then Media(IsAudio(part.inlineData.value.mimeType), part.inlineData.value.mimeType, part.inlineData.value.data, part.signature)
                   else Text(part.thought, part.text, part.signature);
      JoinOther(r.parts, other);
      JoinIDs(seen, r.parts, other, name);
      SnocIDs(seen + r.parts, other, name);
    }
  }

  lemma CallInOrder(pending: Pending, told: seq<Part>, call: Part, name: string)
    requires CallIDs(told, name) == ResponseIDs(told, name) + Of(pending, name) && call.ToolCall?
    ensures CallIDs(told + [call], name) == ResponseIDs(told + [call], name) + Of(Add(pending, call.id, call.name), name)
  {
    hide CallIDs, ResponseIDs;
    SnocIDs(told, call, name);
  }

  lemma ResponseInOrder(pending: Pending, told: seq<Part>, id: string, response: Part, name: string)
    requires CallIDs(told, name) == ResponseIDs(told, name) + Of(pending, name) && response.ToolResponse?
    requires Take(pending, id, response.name).0 == Some(response.id) && (response.name == name ==> IsBlank(id))
    ensures CallIDs(told + [response], name) == ResponseIDs(told + [response], name) + Of(Take(pending, id, response.name).1, name)
  {
    hide CallIDs, ResponseIDs, Take, Of;
    SnocIDs(told, response, name);
    TakeMoves(pending, id, response.name);
  }

  // ----- The queue under a name -----

  /** The list without the first occurrence of an id. */
  function Without(ids: seq<string>, id: string): seq<string> {
    var i := IndexOf(ids, id);
    if i < |ids| then ids[..i] + ids[i + 1..] else ids
  }

  /** The calls of a name that have no response yet, the oldest first. */
  function Waiting(parts: seq<Part>, name: string): seq<string> {
    if parts == [] then [] else
      var before, last := Waiting(parts[..|parts| - 1], name), parts[|parts| - 1];
      if last.ToolCall? && last.name == name then before + [last.id]
      else if last.ToolResponse? && last.name == name then Without(before, last.id)
      else before
  }

  lemma SnocWaiting(parts: seq<Part>, part: Part, name: string)
    ensures Waiting(parts + [part], name) ==
            if part.ToolCall? && part.name == name then Waiting(parts, name) + [part.id]
            else if part.ToolResponse? && part.name == name then Without(Waiting(parts, name), part.id)
            else Waiting(parts, name)
  {
    assert (parts + [part])[..|parts|] == parts;
  }

  ghost predicate Queues(pending: Pending, seen: seq<Part>) {
    forall name: string :: Of(pending, name) == Waiting(seen, name)
  }

  /** All a resolver knows of what was seen. */
  ghost predicate Knows(pending: Pending, seen: seq<Part>) {
    Waits(pending, seen) && Matched(seen) && Queues(pending, seen)
  }

  lemma TakeQueues(pending: Pending, id: string, name: string)
    requires Take(pending, id, name).0.Some?
    ensures var (taken, rest) := Take(pending, id, name);
            && Of(rest, name) == Without(Of(pending, name), taken.value)
            && (forall other: string | other != name :: Of(rest, other) == Of(pending, other))
            && taken.value == if IsBlank(id) then Of(pending, name)[0] else Trim(id)
  {
    hide IsBlank, Trim;
    var ids := Of(pending, name);
    assert IsBlank(id) ==> IndexOf(ids, ids[0]) == 0;
  }

  lemma OtherQueues(pending: Pending, seen: seq<Part>, parts: seq<Part>, part: Part)
    requires Queues(pending, seen + parts) && !part.ToolCall? && !part.ToolResponse?
    ensures Queues(pending, seen + Join(parts, part))
  {
    hide Waiting, Of, Without;
    forall name: string ensures Waiting(seen + Join(parts, part), name) == Waiting(seen + parts, name) {
      SnocWaiting(seen + parts, part, name);
      if parts != [] && Mergeable(parts[|parts| - 1], part) {
        var before, last := parts[..|parts| - 1], parts[|parts| - 1];
        var merged := Text(part.thought, last.text + part.text, "");
        assert seen + parts == seen + before + [last];
        assert seen + Join(parts, part) == seen + before + [merged];
        SnocWaiting(seen + before, last, name);
        SnocWaiting(seen + before, merged, name);
      } else {
        assert seen + Join(parts, part) == seen + parts + [part];
      }
    }
  }

  lemma PartQueues(r: Reading, seen: seq<Part>, part: GeminiPart, messageIndex: int, partIndex: int)
    requires r.Parsed? && Queues(r.pending, seen + r.parts)
    requires ReadPart(r, part, messageIndex, partIndex).Parsed?
    ensures var r' := ReadPart(r, part, messageIndex, partIndex); Queues(r'.pending, seen + r'.parts)
  {
    hide Take, GivenID, IsAudio, Join, Waiting, Without, IsBlank, Trim;
    var r' := ReadPart(r, part, messageIndex, partIndex);
    if part.call.Some? || part.response.Some? {
      var last := r'.parts[|r.parts|];
      assert seen + r'.parts == seen + r.parts + [last];
      if part.call.None? {
        TakeQueues(r.pending, part.response.value.id, last.name);
      }
      forall name: string ensures Of(r'.pending, name) == Waiting(seen + r'.parts, name) {
        SnocWaiting(seen + r.parts, last, name);
      }
    } else {
      var other := if part.inlineData.Some?
                   then Media(IsAudio(part.inlineData.value.mimeType), part.inlineData.value.mimeType, part.inlineData.value.data, part.signature)
                   else Text(part.thought, part.text, part.signature);
      JoinOther(r.parts, other);
      OtherQueues(r.pending, seen, r.parts, other);
    }
  }

  lemma PartKnows(r: Reading, seen: seq<Part>, part: GeminiPart, messageIndex: int, partIndex: int)
    requires r.Parsed? && Knows(r.pending, seen + r.parts)
    requires ReadPart(r, part, messageIndex, partIndex).Parsed?
    ensures var r' := ReadPart(r, part, messageIndex, partIndex); Knows(r'.pending, seen + r'.parts)
  {
    hide Waits, Matched, Queues, ReadPart;
    PartMatches(r, seen, part, messageIndex, partIndex);
    PartQueues(r, seen, part, messageIndex, partIndex);
  }

  // ----- What a trip makes of a message -----

  function Canon(part: Part): Part
    requires Writable(part)
  {
    match part
    case Media(_, mimeType, data, signature) => Media(IsAudio(mimeType), mimeType, data, signature)
    case ToolCall(id, name, args, signature) => ToolCall(Trim(id), Trim(name), args, signature)
    case ToolResponse(id, name, response) => ToolResponse(Trim(id), Trim(name), Valid(ResponseObject(response).value))
    case _ => part
  }

  /** A part as it comes back after what was told before: a call without an id has the id of its
      place in the written message, a response without one that of the oldest call that waits. */
  function Settle(told: seq<Part>, part: Part, messageIndex: int, place: int): Part
    requires Writable(part)
  {
    match part
    case ToolCall(id, name, args, signature) => ToolCall(GivenID(id, messageIndex, place), Trim(name), args, signature)
    case ToolResponse(id, name, response) =>
      var ids := Waiting(told, Trim(name));
      ToolResponse(if IsBlank(id) && ids != [] then ids[0] else Trim(id), Trim(name), Valid(ResponseObject(response).value))
    case _ => Canon(part)
  }

  /** How many parts are written. */
  function Kept(parts: seq<Part>): nat {
    if parts == [] then 0 else Kept(parts[..|parts| - 1]) + if Drops(parts[|parts| - 1]) then 0 else 1
  }

  predicate AllWritable(parts: seq<Part>) {
    forall p <- parts :: Writable(p)
  }

  /** What a trip makes of a message after what was seen: empty unsigned text is dropped, unsigned
      text of a kind that then stands together is merged, names and ids are trimmed or given, audio
      is told by its MIME type, and a response that is no object is put into one. */
  function Settled(seen: seq<Part>, parts: seq<Part>, messageIndex: int): seq<Part>
    requires AllWritable(parts)
  {
    if parts == [] then [] else
      var before, last := parts[..|parts| - 1], parts[|parts| - 1];
      var out := Settled(seen, before, messageIndex);
      if Drops(last) then out else Join(out, Settle(seen + out, last, messageIndex, Kept(before)))
  }

  /** Whether a part can follow what was told: a call has a name, and for a response there are more
      calls than responses before it, of its name if it has no id and else of its id as well. */
  ghost predicate Follows(told: seq<Part>, part: Part) {
    && Writable(part)
    && (part.ToolCall? ==> !IsBlank(part.name))
    && (part.ToolResponse? ==>
          var name := Trim(part.name);
          if IsBlank(part.id) then |ResponseIDs(told, name)| < |CallIDs(told, name)|
          else multiset(ResponseIDs(told, name))[Trim(part.id)] < multiset(CallIDs(told, name))[Trim(part.id)])
  }

  ghost predicate Acceptable(seen: seq<Part>, parts: seq<Part>, messageIndex: int)
    ensures Acceptable(seen, parts, messageIndex) ==> AllWritable(parts)
  {
    parts == [] ||
    var before, last := parts[..|parts| - 1], parts[|parts| - 1];
    assert AllWritable(before) && Writable(last) ==> AllWritable(parts) by { WritableSnoc(before, last, parts); }
    Acceptable(seen, before, messageIndex) && Follows(seen + Settled(seen, before, messageIndex), last)
  }

  lemma WritableSnoc(before: seq<Part>, last: Part, parts: seq<Part>)
    requires parts == before + [last]
    ensures AllWritable(parts) <==> AllWritable(before) && Writable(last)
  {
    hide Writable;
    assert forall p :: p in parts <==> p in before || p == last;
  }

  // ----- One message there and back -----

  function Trip(pending: Pending, parts: seq<Part>, messageIndex: int): (trip: Option<Reading>)
    ensures trip.Some? ==> trip.value.Parsed?
  {
    match WriteParts(parts)
    case None => None
    case Some(written) =>
      var r := ReadParts(pending, written, messageIndex);
      if r.Parsed? then Some(r) else None
  }

  lemma WriteSnoc(parts: seq<Part>)
    requires parts != []
    ensures var before, last := WriteParts(parts[..|parts| - 1]), parts[|parts| - 1];
            WriteParts(parts) == if before.None? || !Writable(last) then None else Some(before.value + WritePart(last))
  {}

  lemma {:induction false} WritesKept(parts: seq<Part>)
    requires WriteParts(parts).Some?
    ensures |WriteParts(parts).value| == Kept(parts)
  {
    if parts != [] {
      WritesKept(parts[..|parts| - 1]);
    }
  }

  /** A response finds a call exactly when the counts say so. */
  lemma FindsIff(pending: Pending, told: seq<Part>, id: string, name: string)
    requires Knows(pending, told)
    ensures Take(pending, id, name).0.Some? <==>
            if IsBlank(id) then |ResponseIDs(told, name)| < |CallIDs(told, name)|
            else multiset(ResponseIDs(told, name))[Trim(id)] < multiset(CallIDs(told, name))[Trim(id)]
  {
    hide CallIDs, ResponseIDs, Of, Take, IsBlank, Trim, Matched, Queues;
    TakeFindsIff(pending, id, name);
    var calls, responses, ids := CallIDs(told, name), ResponseIDs(told, name), Of(pending, name);
    assert multiset(calls) == multiset(responses) + multiset(ids);
    assert |multiset(calls)| == |calls| && |multiset(responses)| == |responses| && |multiset(ids)| == |ids|;
  }

  /** Reading what one part is written as. */
  lemma PartReadsBack(r: Reading, seen: seq<Part>, part: Part, messageIndex: int, place: int)
    requires r.Parsed? && Knows(r.pending, seen + r.parts) && Writable(part) && !Drops(part)
    ensures |WritePart(part)| == 1
    ensures var r' := ReadPart(r, WritePart(part)[0], messageIndex, place);
            && (r'.Parsed? <==> Follows(seen + r.parts, part))
            && (r'.Parsed? ==> r'.parts == Join(r.parts, Settle(seen + r.parts, part, messageIndex, place)))
  {
    hide Trim, IsBlank, Take, ResponseObject, IsAudio, GivenID, Knows, CallIDs, ResponseIDs, Waiting;
    JoinOther(r.parts, Settle(seen + r.parts, part, messageIndex, place));
    if part.ToolResponse? {
      var name := Trim(part.name);
      FindsIff(r.pending, seen + r.parts, part.id, name);
      if Take(r.pending, part.id, name).0.Some? {
        TakeQueues(r.pending, part.id, name);
        KnowsQueue(r.pending, seen + r.parts, name);
        NotEmptyQueue(r.pending, part.id, name);
      }
    }
  }

  lemma KnowsQueue(pending: Pending, told: seq<Part>, name: string)
    requires Knows(pending, told)
    ensures Of(pending, name) == Waiting(told, name)
  {}

  lemma NotEmptyQueue(pending: Pending, id: string, name: string)
    requires Take(pending, id, name).0.Some?
    ensures Of(pending, name) != []
  {}

  lemma AcceptableMeans(seen: seq<Part>, parts: seq<Part>, messageIndex: int)
    requires parts != [] && Acceptable(seen, parts[..|parts| - 1], messageIndex)
    ensures AllWritable(parts[..|parts| - 1])
    ensures Acceptable(seen, parts, messageIndex) <==>
            Follows(seen + Settled(seen, parts[..|parts| - 1], messageIndex), parts[|parts| - 1])
  {
    hide Follows, Settled, AllWritable;
  }

  /** A message comes back exactly when it is acceptable after what was seen, and then settled. */
  lemma {:induction false} MessageTrips(pending: Pending, seen: seq<Part>, parts: seq<Part>, messageIndex: int)
    requires Knows(pending, seen)
    ensures Trip(pending, parts, messageIndex).Some? <==> Acceptable(seen, parts, messageIndex)
    ensures Acceptable(seen, parts, messageIndex) ==>
              var r := Trip(pending, parts, messageIndex).value;
              r.parts == Settled(seen, parts, messageIndex) && Knows(r.pending, seen + r.parts)
  {
    hide Knows, ReadPart, WritePart, Writable, Drops, Join, Settle, Follows, AllWritable;
    if parts == [] {
      assert seen + [] == seen;
    } else {
      var n := |parts| - 1;
      var before, last := parts[..n], parts[n];
      MessageTrips(pending, seen, before, messageIndex);
      WriteSnoc(parts);
      assert parts == before + [last];
      if !Acceptable(seen, before, messageIndex) {
        WrittenOrNot(pending, before, last, messageIndex);
      } else {
        AcceptableMeans(seen, parts, messageIndex);
        var told := Trip(pending, before, messageIndex).value;
        if Writable(last) {
          LastTrips(pending, seen, before, last, messageIndex, told);
          WritableSnoc(before, last, parts);
        } else {
          NotWritable(seen + told.parts, last);
        }
      }
    }
  }

  lemma LastTrips(pending: Pending, seen: seq<Part>, before: seq<Part>, last: Part, messageIndex: int, told: Reading)
    requires Trip(pending, before, messageIndex) == Some(told) && Knows(told.pending, seen + told.parts) && Writable(last)
    ensures var t := Trip(pending, before + [last], messageIndex);
            && (t.Some? <==> Follows(seen + told.parts, last))
            && (t.Some? ==>
                  && t.value.parts == (if Drops(last) then told.parts else Join(told.parts, Settle(seen + told.parts, last, messageIndex, Kept(before))))
                  && Knows(t.value.pending, seen + t.value.parts))
  {
    hide Knows, ReadPart, ReadParts, WriteParts, WritePart, Writable, Drops, Join, Settle, Follows;
    var parts := before + [last];
    assert parts[..|before|] == before;
    WriteSnoc(parts);
    WritesKept(before);
    var written := WriteParts(before).value;
    if Drops(last) {
      DropsFollows(seen + told.parts, last);
      assert written + [] == written;
    } else {
      PartReadsBack(told, seen, last, messageIndex, |written|);
      var g := WritePart(last)[0];
      assert WritePart(last) == [g];
      ReadMore(pending, written, g, messageIndex);
      if ReadPart(told, g, messageIndex, |written|).Parsed? {
        PartKnows(told, seen, g, messageIndex, |written|);
      }
    }
  }

  lemma ReadMore(pending: Pending, parts: seq<GeminiPart>, part: GeminiPart, messageIndex: int)
    ensures ReadParts(pending, parts + [part], messageIndex) == ReadPart(ReadParts(pending, parts, messageIndex), part, messageIndex, |parts|)
  {
    hide ReadPart;
    assert (parts + [part])[..|parts|] == parts;
  }

  lemma DropsFollows(told: seq<Part>, last: Part)
    requires Drops(last)
    ensures Follows(told, last) && WritePart(last) == []
  {}

  lemma NotWritable(told: seq<Part>, last: Part)
    requires !Writable(last)
    ensures !Follows(told, last)
  {}

  /** A message that does not come back does not with one part more. */
  lemma WrittenOrNot(pending: Pending, before: seq<Part>, last: Part, messageIndex: int)
    requires Trip(pending, before, messageIndex).None?
    ensures Trip(pending, before + [last], messageIndex).None?
  {
    hide ReadPart, WritePart, Writable;
    assert (before + [last])[..|before|] == before;
    WriteSnoc(before + [last]);
    if WriteParts(before).Some? && Writable(last) {
      var written := WriteParts(before).value;
      assert (written + WritePart(last))[..|written|] == written;
      RejectedStays(pending, written + WritePart(last), messageIndex, |written|);
    }
  }
}
