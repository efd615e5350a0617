/** Gemini history to canonical parts and back (internal/protocol/gemini.go:378-494, 552-626):
    the resolver that matches responses to calls, the reading of parts, which merges text, and
    the writing of parts. */
module GeminiHistory {
  import opened Canonical

  // ----- Parts -----

  /** A JSON value that is a response: an object, or anything else, each by its text. */
  datatype Json = Object(fields: map<string, string>) | Value(text: string)

  datatype Raw = Missing | Malformed | Valid(json: Json)

  datatype InlineData = InlineData(mimeType: string, data: string)
  datatype FunctionCall = FunctionCall(id: string, name: string, args: string)
  datatype FunctionResponse = FunctionResponse(id: string, name: string, response: Raw)

  /** GeminiPart. */
  datatype GeminiPart = GeminiPart(text: string, thought: bool, signature: string, inlineData: Option<InlineData>,
                                   call: Option<FunctionCall>, response: Option<FunctionResponse>)

  /** CanonicalPart, by type. */
  datatype Part =
    | Text(thought: bool, text: string, signature: string)
    | Media(audio: bool, mimeType: string, data: string, signature: string)
    | ToolCall(id: string, name: string, args: string, signature: string)
    | ToolResponse(id: string, name: string, response: Raw)
    | OtherPart(kind: string)

  // ----- The resolver -----

  type Pending = map<string, seq<string>>

  function Of(pending: Pending, name: string): seq<string> {
    if name in pending then pending[name] else []
  }

  /** A call waits under its name; without an id it gets one of its place. */
  function GivenID(id: string, messageIndex: int, partIndex: int): string {
    if IsBlank(id) then "call_" + FormatInt(messageIndex) + "_" + FormatInt(partIndex) else Trim(id)
  }

  function Add(pending: Pending, id: string, name: string): Pending {
    pending[name := Of(pending, name) + [id]]
  }

  /** The first place of an id; the end of the list if it has none. */
  function IndexOf(ids: seq<string>, id: string): (i: nat)
    ensures i <= |ids| && (i < |ids| ==> ids[i] == id)
    ensures i < |ids| <==> id in ids
    ensures forall k | 0 <= k < i :: ids[k] != id
  {
    if ids == [] then 0 else
      var n := |ids| - 1;
      var i := IndexOf(ids[..n], id);
      assert id in ids <==> id in ids[..n] || id == ids[n];
      if i < n || ids[n] == id then i else n + 1
  }

  /** A response takes the call of its id, or without one the oldest that waits under its name. */
  function Take(pending: Pending, id: string, name: string): (Option<string>, Pending) {
    var ids := Of(pending, name);
    var i := if IsBlank(id) then 0 else IndexOf(ids, Trim(id));
    if i >= |ids| then (None, pending) else
      var rest := ids[..i] + ids[i + 1..];
      (Some(ids[i]), if rest == [] then pending - {name} else pending[name := rest])
  }

  lemma FirstIndex(ids: seq<string>, id: string, i: nat)
    requires i <= |ids| && (i < |ids| ==> ids[i] == id) && forall k | 0 <= k < i :: ids[k] != id
    ensures i == IndexOf(ids, id)
  {}

  class ToolCallResolver {
    var pending: Pending

    constructor ()
      ensures pending == map[]
    {
      pending := map[];
    }

    method AddCall(id: string, name: string, messageIndex: int, partIndex: int) returns (given: string)
      modifies this
      ensures given == GivenID(id, messageIndex, partIndex) && pending == Add(old(pending), given, name)
    {
      TrimShape(id);
      given := Trim(id);
      if given == "" {
        given := "call_" + FormatInt(messageIndex) + "_" + FormatInt(partIndex);
      }
      pending := pending[name := (if name in pending then pending[name] else []) + [given]];
    }

    method TakeCall(id: string, name: string) returns (taken: Option<string>)
      modifies this
      ensures (taken, pending) == Take(old(pending), id, name)
    {
      hide Trim, IsBlank, IndexOf;
      TrimShape(id);
      var wanted := Trim(id);
      var ids := if name in pending then pending[name] else [];
      if |ids| == 0 {
        return None;
      }
      var index := 0;
      if wanted != "" {
        while index < |ids| && ids[index] != wanted
          invariant 0 <= index <= |ids| && forall k | 0 <= k < index :: ids[k] != wanted
        {
          index := index + 1;
        }
        FirstIndex(ids, wanted, index);
        if index == |ids| {
          return None;
        }
      }
      taken := Some(ids[index]);
      ids := ids[..index] + ids[index + 1..];
      if |ids| == 0 {
        pending := pending - {name};
      } else {
        pending := pending[name := ids];
      }
    }
  }

  // ----- Reading -----

  datatype Error = CallNameRequired | ResponseNameRequired | NoMatchingCall | ThoughtMedia | EmptyPart

  datatype Reading = Parsed(pending: Pending, parts: seq<Part>) | Rejected(error: Error)

  function Mergeable(a: Part, b: Part): bool {
    a.Text? && b.Text? && a.thought == b.thought && a.signature == "" && b.signature == ""
  }

  /** Text joins the part before it when both are unsigned and of a kind. */
  function Join(parts: seq<Part>, part: Part): seq<Part> {
    if parts != [] && Mergeable(parts[|parts| - 1], part)
    then parts[|parts| - 1 := Text(part.thought, parts[|parts| - 1].text + part.text, "")]
    else parts + [part]
  }

  predicate IsAudio(mimeType: string) {
    |mimeType| >= 6 && ToLower(mimeType[..6]) == "audio/"
  }

  /** One part of a Gemini message. */
  function ReadPart(r: Reading, part: GeminiPart, messageIndex: int, partIndex: int): Reading {
    if r.Rejected? then r
    else if part.call.Some? then
      var call := part.call.value;
      if IsBlank(call.name) then Rejected(CallNameRequired) else
        var id := GivenID(call.id, messageIndex, partIndex);
        Parsed(Add(r.pending, id, Trim(call.name)), r.parts + [ToolCall(id, Trim(call.name), call.args, part.signature)])
    else if part.response.Some? then
      var response := part.response.value;
      if IsBlank(response.name) then Rejected(ResponseNameRequired) else
        var (id, pending) := Take(r.pending, response.id, Trim(response.name));
        if id.None? then Rejected(NoMatchingCall)
        else Parsed(pending, r.parts + [ToolResponse(id.value, Trim(response.name), response.response)])
    else if part.inlineData.Some? then
      var d := part.inlineData.value;
      if part.thought then Rejected(ThoughtMedia)
      else r.(parts := r.parts + [Media(IsAudio(d.mimeType), d.mimeType, d.data, part.signature)])
    else if part.text != "" || part.signature != "" then r.(parts := Join(r.parts, Text(part.thought, part.text, part.signature)))
    else Rejected(EmptyPart)
  }

  function ReadParts(pending: Pending, parts: seq<GeminiPart>, messageIndex: int): Reading {
    if parts == [] then Parsed(pending, []) else
      var n := |parts| - 1;
      ReadPart(ReadParts(pending, parts[..n], messageIndex), parts[n], messageIndex, n)
  }

  lemma {:induction false} RejectedStays(pending: Pending, parts: seq<GeminiPart>, messageIndex: int, k: nat)
    requires k <= |parts| && ReadParts(pending, parts[..k], messageIndex).Rejected?
    ensures ReadParts(pending, parts, messageIndex) == ReadParts(pending, parts[..k], messageIndex)
    decreases |parts|
  {
    if k < |parts| {
      assert parts[..|parts| - 1][..k] == parts[..k];
      RejectedStays(pending, parts[..|parts| - 1], messageIndex, k);
    } else {
      assert parts[..k] == parts;
    }
  }

  /** geminiPartsToCanonical. */
  method PartsToCanonical(parts: seq<GeminiPart>, messageIndex: int, toolCalls: ToolCallResolver) returns (out: seq<Part>, error: Option<Error>)
    modifies toolCalls
    ensures match ReadParts(old(toolCalls.pending), parts, messageIndex)
            case Parsed(pending, read) => error == None && out == read && toolCalls.pending == pending
            case Rejected(e) => error == Some(e)
  {
    hide GivenID, Take, IsAudio;
    out, error := [], None;
    for k := 0 to |parts|
      invariant ReadParts(old(toolCalls.pending), parts[..k], messageIndex) == Parsed(toolCalls.pending, out) && error == None
    {
      assert parts[..k + 1][..k] == parts[..k];
      ghost var r := ReadParts(old(toolCalls.pending), parts[..k], messageIndex);
      out, error := ReadOne(out, parts[k], messageIndex, k, toolCalls);
      assert ReadParts(old(toolCalls.pending), parts[..k + 1], messageIndex) == ReadPart(r, parts[k], messageIndex, k);
      if error.Some? {
        RejectedStays(old(toolCalls.pending), parts, messageIndex, k + 1);
        return;
      }
    }
    assert parts[..|parts|] == parts;
  }

  /** The body of the loop: `out` is appended to, or its last part edited. */
  method ReadOne(out: seq<Part>, part: GeminiPart, messageIndex: int, partIndex: int, toolCalls: ToolCallResolver)
    returns (out': seq<Part>, error: Option<Error>)
    modifies toolCalls
    ensures ReadPart(Parsed(old(toolCalls.pending), out), part, messageIndex, partIndex) ==
            if error.Some? then Rejected(error.value) else Parsed(toolCalls.pending, out')
  {
    hide GivenID, Take, IsAudio;
    out', error := out, None;
    if part.call.Some? {
      TrimShape(part.call.value.name);
      var name := Trim(part.call.value.name);
      if name == "" {
        return out, Some(CallNameRequired);
      }
      var id := toolCalls.AddCall(part.call.value.id, name, messageIndex, partIndex);
      out' := out + [ToolCall(id, name, part.call.value.args, part.signature)];
    } else if part.response.Some? {
      TrimShape(part.response.value.name);
      var name := Trim(part.response.value.name);
      if name == "" {
        return out, Some(ResponseNameRequired);
      }
      var id := toolCalls.TakeCall(part.response.value.id, name);
      if id.None? {
        return out, Some(NoMatchingCall);
      }
      out' := out + [ToolResponse(id.value, name, part.response.value.response)];
    } else if part.inlineData.Some? {
      if part.thought {
        return out, Some(ThoughtMedia);
      }
      var d := part.inlineData.value;
      out' := out + [Media(IsAudio(d.mimeType), d.mimeType, d.data, part.signature)];
    } else if part.text != "" || part.signature != "" {
      var last := |out| - 1;
      if last >= 0 && out[last].Text? && out[last].thought == part.thought && out[last].signature == "" && part.signature == "" {
        out' := out[last := out[last].(text := out[last].text + part.text)];
      } else {
        out' := out + [Text(part.thought, part.text, part.signature)];
      }
    } else {
      error := Some(EmptyPart);
    }
  }

  // ----- Writing -----

  /** canonicalToolResponseToGemini: an object as it is, anything else under "result". */
  function ResponseObject(raw: Raw): Option<Json> {
    match raw
    case Missing => Some(Object(map["result" := "null"]))
    case Malformed => None
    case Valid(Object(fields)) => Some(Object(fields))
    case Valid(Value(text)) => Some(Object(map["result" := text]))
  }

  predicate Drops(part: Part) {
    part.Text? && part.text == "" && part.signature == ""
  }

  const BARE := GeminiPart("", false, "", None, None, None)

  /** Whether a part can be written. */
  predicate Writable(part: Part) {
    match part
    case ToolResponse(_, name, response) => !IsBlank(name) && ResponseObject(response).Some?
    case OtherPart(_) => false
    case _ => true
  }

  function WritePart(part: Part): seq<GeminiPart>
    requires Writable(part)
  {
    match part
    case Text(thought, text, signature) =>
      if Drops(part) then [] else [BARE.(text := text, thought := thought, signature := signature)]
    case Media(_, mimeType, data, signature) => [BARE.(inlineData := Some(InlineData(mimeType, data)), signature := signature)]
    case ToolCall(id, name, args, signature) => [BARE.(call := Some(FunctionCall(id, name, args)), signature := signature)]
    case ToolResponse(id, name, response) =>
      [BARE.(response := Some(FunctionResponse(id, name, Valid(ResponseObject(response).value))))]
  }

  function WriteParts(parts: seq<Part>): Option<seq<GeminiPart>> {
    if parts == [] then Some([]) else
      var before, last := WriteParts(parts[..|parts| - 1]), parts[|parts| - 1];
      if before.None? || !Writable(last) then None else Some(before.value + WritePart(last))
  }

  lemma {:induction false} UnwrittenStays(parts: seq<Part>, k: nat)
    requires k <= |parts| && WriteParts(parts[..k]).None?
    ensures WriteParts(parts).None?
    decreases |parts|
  {
    if k < |parts| {
      assert parts[..|parts| - 1][..k] == parts[..k];
      UnwrittenStays(parts[..|parts| - 1], k);
    } else {
      assert parts[..k] == parts;
    }
  }

  /** canonicalPartsToGeminiParts; None stands for its errors. */
  method PartsToGemini(parts: seq<Part>) returns (out: Option<seq<GeminiPart>>)
    ensures out == WriteParts(parts)
  {
    hide ResponseObject;
    var written: seq<GeminiPart> := [];
    for k := 0 to |parts|
      invariant WriteParts(parts[..k]) == Some(written)
    {
      assert parts[..k + 1][..k] == parts[..k];
      ghost var before := written;
      match parts[k] {
        case Text(thought, text, signature) =>
          if !(text == "" && signature == "") {
            written := written + [BARE.(text := text, thought := thought, signature := signature)];
          }
        case Media(_, mimeType, data, signature) =>
          written := written + [BARE.(inlineData := Some(InlineData(mimeType, data)), signature := signature)];
        case ToolCall(id, name, args, signature) =>
          written := written + [BARE.(call := Some(FunctionCall(id, name, args)), signature := signature)];
        case ToolResponse(id, name, raw) =>
          var wrapped := ResponseObject(raw);
          if IsBlank(name) || wrapped.None? {
            UnwrittenStays(parts, k + 1);
            return None;
          }
          written := written + [BARE.(response := Some(FunctionResponse(id, name, Valid(wrapped.value))))];
        case OtherPart(_) =>
          UnwrittenStays(parts, k + 1);
          return None;
      }
      assert Writable(parts[k]) && written == before + WritePart(parts[k]);
    }
    assert parts[..|parts|] == parts;
    out := Some(written);
  }
}
