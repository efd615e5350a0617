/** What the parts of a Gemini message say (internal/protocol/gemini.go:378-494), told part by
    part: letters of unsigned text one by one, everything else as a whole. A message is read as
    the one shortest list of parts that says the same. */
module GeminiHistoryRead {
  import opened Canonical
  import opened GeminiHistory
  import opened GeminiHistoryTrip

  /** The least there is to say: a letter of text or thought, or a part that stays whole. */
  datatype Atom = Letter(thought: bool, c: char) | Whole(part: Part)

  function Letters(thought: bool, text: string): seq<Atom> {
    seq(|text|, k requires 0 <= k < |text| => Letter(thought, text[k]))
  }

  predicate Loose(part: Part) {
    part.Text? && part.signature == ""
  }

  function AtomsIn(part: Part): seq<Atom> {
    if Loose(part) then Letters(part.thought, part.text) else [Whole(part)]
  }

  function AtomsOf(parts: seq<Part>): seq<Atom> {
    if parts == [] then [] else AtomsOf(parts[..|parts| - 1]) + AtomsIn(parts[|parts| - 1])
  }

  /** The list without the first occurrence of an id. */
  function Minus(ids: seq<string>, id: string): seq<string> {
    if ids == [] then [] else if ids[0] == id then ids[1..] else [ids[0]] + Minus(ids[1..], id)
  }

  /** The ids of the calls of a name that have no response yet, the oldest first. */
  function Unanswered(told: seq<Atom>, name: string): seq<string> {
    if told == [] then [] else
      var before := Unanswered(told[..|told| - 1], name);
      match told[|told| - 1]
      case Whole(ToolCall(id, n, _, _)) => if n == name then before + [id] else before
      case Whole(ToolResponse(id, n, _)) => if n == name then Minus(before, id) else before
      case _ => before
  }

  /** What a part says after what was told; nothing for an error. A call without an id has one of
      its place, a response without one that of the oldest call of its name without a response. */
  function Says(told: seq<Atom>, part: GeminiPart, messageIndex: int, place: int): Option<seq<Atom>> {
    if part.call.Some? then
      var call := part.call.value;
      var id := if Trim(call.id) != "" then Trim(call.id) else "call_" + FormatInt(messageIndex) + "_" + FormatInt(place);
      if Trim(call.name) == "" then None else Some([Whole(ToolCall(id, Trim(call.name), call.args, part.signature))])
    else if part.response.Some? then
      var name, id, response := Trim(part.response.value.name), Trim(part.response.value.id), part.response.value.response;
      var ids := Unanswered(told, name);
      if name == "" then None
      else if id == "" then if ids == [] then None else Some([Whole(ToolResponse(ids[0], name, response))])
      else if id in ids then Some([Whole(ToolResponse(id, name, response))]) else None
    else if part.inlineData.Some? then
      var d := part.inlineData.value;
      if part.thought then None else Some([Whole(Media("audio/" <= ToLower(d.mimeType), d.mimeType, d.data, part.signature))])
    else if part.signature != "" then Some([Whole(Text(part.thought, part.text, part.signature))])
    else if part.text != "" then Some(Letters(part.thought, part.text))
    else None
  }

  function Hear(told: seq<Atom>, parts: seq<GeminiPart>, messageIndex: int): Option<seq<Atom>> {
    if parts == [] then Some([]) else
      var n := |parts| - 1;
      match Hear(told, parts[..n], messageIndex)
      case None => None
      case Some(heard) =>
        var more := Says(told + heard, parts[n], messageIndex, n);
        if more.None? then None else Some(heard + more.value)
  }

  /** As short as can be: no empty loose text, and no two of a kind together. */
  ghost predicate Tight(parts: seq<Part>) {
    && (forall k | 0 <= k < |parts| :: Loose(parts[k]) ==> parts[k].text != "")
    && (forall k | 0 < k < |parts| :: !(Loose(parts[k - 1]) && Loose(parts[k]) && parts[k - 1].thought == parts[k].thought))
  }

  // ----- Reading says the same -----

  lemma AtomsSnoc(parts: seq<Part>, part: Part)
    ensures AtomsOf(parts + [part]) == AtomsOf(parts) + AtomsIn(part)
  {
    assert (parts + [part])[..|parts|] == parts;
  }

  lemma {:induction false} MinusAt(ids: seq<string>, id: string, i: nat)
    requires i <= |ids| && (i < |ids| ==> ids[i] == id) && forall k | 0 <= k < i :: ids[k] != id
    ensures Minus(ids, id) == if i < |ids| then ids[..i] + ids[i + 1..] else ids
    decreases i
  {
    if i > 0 {
      var rest := ids[1..];
      MinusAt(rest, id, i - 1);
      assert ids == [ids[0]] + rest;
      if i < |ids| {
        assert ids[..i] == [ids[0]] + rest[..i - 1] && ids[i + 1..] == rest[i..];
      }
    } else if ids != [] {
      assert ids[..0] + ids[1..] == ids[1..];
    }
  }

  lemma MinusIsWithout(ids: seq<string>, id: string)
    ensures Minus(ids, id) == Without(ids, id)
  {
    hide Minus, IndexOf;
    MinusAt(ids, id, IndexOf(ids, id));
  }

  lemma {:induction false} LettersWait(told: seq<Atom>, letters: seq<Atom>, name: string)
    requires forall k | 0 <= k < |letters| :: letters[k].Letter?
    ensures Unanswered(told + letters, name) == Unanswered(told, name)
  {
    if letters == [] {
      assert told + letters == told;
    } else {
      assert (told + letters)[..|told + letters| - 1] == told + letters[..|letters| - 1];
      LettersWait(told, letters[..|letters| - 1], name);
    }
  }

  lemma {:induction false} UnansweredAreWaiting(parts: seq<Part>, name: string)
    ensures Unanswered(AtomsOf(parts), name) == Waiting(parts, name)
  {
    if parts != [] {
      var before, last := parts[..|parts| - 1], parts[|parts| - 1];
      UnansweredAreWaiting(before, name);
      if Loose(last) {
        LettersWait(AtomsOf(before), Letters(last.thought, last.text), name);
      } else {
        var told := AtomsOf(before);
        assert (told + [Whole(last)])[..|told|] == told;
        if last.ToolResponse? {
          MinusIsWithout(Waiting(before, name), last.id);
        }
      }
    }
  }

  lemma MergedSays(before: seq<Part>, last: Part, part: Part)
    requires Mergeable(last, part)
    ensures var merged := Text(part.thought, last.text + part.text, "");
            && AtomsOf(before + [merged]) == AtomsOf(before + [last]) + AtomsIn(part)
            && (Tight(before + [last]) && part.text != "" ==> Tight(before + [merged]))
  {
    hide AtomsOf;
    var merged := Text(part.thought, last.text + part.text, "");
    AtomsSnoc(before, merged);
    AtomsSnoc(before, last);
    assert Letters(part.thought, last.text + part.text) == Letters(part.thought, last.text) + Letters(part.thought, part.text);
    if Tight(before + [last]) && part.text != "" {
      SwapTight(before, last, merged);
    }
  }

  lemma SwapTight(before: seq<Part>, last: Part, merged: Part)
    requires Tight(before + [last]) && Loose(last) && Loose(merged) && merged.thought == last.thought && merged.text != ""
    ensures Tight(before + [merged])
  {
    var was, now := before + [last], before + [merged];
    forall k | 0 <= k < |now| ensures Loose(now[k]) ==> now[k].text != "" {
      assert k < |before| ==> was[k] == now[k];
    }
    forall k | 0 < k < |now| ensures !(Loose(now[k - 1]) && Loose(now[k]) && now[k - 1].thought == now[k].thought) {
      assert was[k - 1] == now[k - 1] && (k < |before| ==> was[k] == now[k]);
      assert !(Loose(was[k - 1]) && Loose(was[k]) && was[k - 1].thought == was[k].thought);
    }
  }

  lemma JoinSays(parts: seq<Part>, part: Part)
    ensures AtomsOf(Join(parts, part)) == AtomsOf(parts) + AtomsIn(part)
    ensures Tight(parts) && (Loose(part) ==> part.text != "") ==> Tight(Join(parts, part))
  {
    hide AtomsOf, AtomsIn;
    if parts != [] && Mergeable(parts[|parts| - 1], part) {
      hide Tight;
      var before, last := parts[..|parts| - 1], parts[|parts| - 1];
      assert parts == before + [last];
      assert Join(parts, part) == before + [Text(part.thought, last.text + part.text, "")];
      MergedSays(before, last, part);
    } else {
      AtomsSnoc(parts, part);
    }
  }

  lemma AudioIs(mimeType: string)
    ensures IsAudio(mimeType) <==> "audio/" <= ToLower(mimeType)
  {
    if |mimeType| >= 6 {
      assert ToLower(mimeType)[..6] == ToLower(mimeType[..6]);
    }
  }

  /** A response that names or leaves open its call. */
  lemma TakeIs(pending: Pending, id: string, name: string, waiting: seq<string>)
    requires Of(pending, name) == waiting
    ensures Take(pending, id, name).0 ==
            if Trim(id) == "" then if waiting == [] then None else Some(waiting[0])
            else if Trim(id) in waiting then Some(Trim(id)) else None
  {
    hide Trim, IsBlank;
    TrimShape(id);
  }

  lemma PartSays(r: Reading, seen: seq<Part>, part: GeminiPart, messageIndex: int, place: int)
    requires r.Parsed? && Knows(r.pending, seen + r.parts) && Tight(r.parts)
    ensures var r', said := ReadPart(r, part, messageIndex, place), Says(AtomsOf(seen + r.parts), part, messageIndex, place);
            && (r'.Parsed? <==> said.Some?)
            && (r'.Parsed? ==> AtomsOf(r'.parts) == AtomsOf(r.parts) + said.value && Tight(r'.parts))
  {
    hide Trim, IsBlank, Take, IsAudio, Knows, Waiting, Join, Unanswered;
    if part.call.Some? {
      var call := part.call.value;
      TrimShape(call.id);
      TrimShape(call.name);
      WholeSays(r.parts, ToolCall(GivenID(call.id, messageIndex, place), Trim(call.name), call.args, part.signature));
    } else if part.response.Some? {
      var response := part.response.value;
      var name := Trim(response.name);
      TrimShape(response.name);
      UnansweredAreWaiting(seen + r.parts, name);
      KnowsQueue(r.pending, seen + r.parts, name);
      TakeIs(r.pending, response.id, name, Waiting(seen + r.parts, name));
      var id := Take(r.pending, response.id, name).0;
      if id.Some? {
        WholeSays(r.parts, ToolResponse(id.value, name, response.response));
      }
    } else if part.inlineData.Some? {
      var d := part.inlineData.value;
      AudioIs(d.mimeType);
      WholeSays(r.parts, Media(IsAudio(d.mimeType), d.mimeType, d.data, part.signature));
    } else {
      JoinSays(r.parts, Text(part.thought, part.text, part.signature));
    }
  }

  lemma WholeSays(parts: seq<Part>, part: Part)
    requires !Loose(part)
    ensures AtomsOf(parts + [part]) == AtomsOf(parts) + [Whole(part)]
    ensures Tight(parts) ==> Tight(parts + [part])
  {
    AtomsSnoc(parts, part);
  }

  lemma {:induction false} AtomsAppend(a: seq<Part>, b: seq<Part>)
    ensures AtomsOf(a + b) == AtomsOf(a) + AtomsOf(b)
  {
    hide AtomsIn;
    if b == [] {
      assert a + b == a;
    } else {
      assert (a + b)[..|a + b| - 1] == a + b[..|b| - 1];
      AtomsAppend(a, b[..|b| - 1]);
    }
  }

  /** A message is accepted exactly when all its parts say something after those before them and
      what was seen, and is then read as a tight list of parts that says the same. */
  lemma {:induction false} ReadIsHeard(pending: Pending, seen: seq<Part>, parts: seq<GeminiPart>, messageIndex: int)
    requires Knows(pending, seen)
    ensures var r, heard := ReadParts(pending, parts, messageIndex), Hear(AtomsOf(seen), parts, messageIndex);
            && (r.Parsed? <==> heard.Some?)
            && (r.Parsed? ==> AtomsOf(r.parts) == heard.value && Tight(r.parts) && Knows(r.pending, seen + r.parts))
  {
    hide Knows, ReadPart, Says;
    if parts == [] {
      assert seen + [] == seen;
    } else {
      var n := |parts| - 1;
      ReadIsHeard(pending, seen, parts[..n], messageIndex);
      var r := ReadParts(pending, parts[..n], messageIndex);
      if r.Parsed? {
        AtomsAppend(seen, r.parts);
        PartSays(r, seen, parts[n], messageIndex, n);
        if ReadPart(r, parts[n], messageIndex, n).Parsed? {
          PartKnows(r, seen, parts[n], messageIndex, n);
        }
      } else {
        RejectedPart(r, parts[n], messageIndex, n);
      }
    }
  }

  lemma RejectedPart(r: Reading, part: GeminiPart, messageIndex: int, place: int)
    requires r.Rejected?
    ensures ReadPart(r, part, messageIndex, place) == r
  {}

  // ----- There is one tight list -----

  lemma TightPrefix(parts: seq<Part>)
    requires Tight(parts) && parts != []
    ensures Tight(parts[..|parts| - 1])
  {}

  /** What tight parts end in. */
  lemma LastAtom(parts: seq<Part>)
    requires Tight(parts) && parts != []
    ensures AtomsOf(parts) != []
    ensures var atoms, last := AtomsOf(parts), parts[|parts| - 1];
            atoms[|atoms| - 1] == if Loose(last) then Letter(last.thought, last.text[|last.text| - 1]) else Whole(last)
  {}

  lemma AtomsLast(parts: seq<Part>)
    requires parts != []
    ensures AtomsOf(parts) == AtomsOf(parts[..|parts| - 1]) + AtomsIn(parts[|parts| - 1])
  {}

  /** Before the letters of the last text stands something of another kind. */
  lemma OtherBefore(parts: seq<Part>)
    requires Tight(parts) && |parts| > 1 && Loose(parts[|parts| - 1])
    ensures var early, last := AtomsOf(parts[..|parts| - 1]), parts[|parts| - 1];
            early != [] && !(early[|early| - 1].Letter? && early[|early| - 1].thought == last.thought)
  {
    TightPrefix(parts);
    LastAtom(parts[..|parts| - 1]);
  }

  /** Two tight lists that say the same and end in text of a kind end in the same text. */
  lemma SameEnd(a: seq<Part>, b: seq<Part>)
    requires Tight(a) && Tight(b) && AtomsOf(a) == AtomsOf(b) && a != [] && b != []
    requires Loose(a[|a| - 1]) && Loose(b[|b| - 1]) && a[|a| - 1].thought == b[|b| - 1].thought
    ensures |a[|a| - 1].text| <= |b[|b| - 1].text|
  {
    hide AtomsOf, Tight;
    var p, q := a[|a| - 1], b[|b| - 1];
    AtomsLast(a);
    AtomsLast(b);
    var atoms, early := AtomsOf(a), AtomsOf(b[..|b| - 1]);
    if |b| > 1 {
      OtherBefore(b);
      assert atoms[|early| - 1] == early[|early| - 1];
      assert forall k | |atoms| - |p.text| <= k < |atoms| :: atoms[k].Letter? && atoms[k].thought == p.thought;
    } else {
      NoAtoms(b[..|b| - 1]);
    }
  }

  lemma NoAtoms(parts: seq<Part>)
    requires parts == []
    ensures AtomsOf(parts) == []
  {}

  /** The complaint about a part that says nothing. */
  function Complaint(part: GeminiPart): Error {
    if part.call.Some? then CallNameRequired
    else if part.response.Some? then if Trim(part.response.value.name) == "" then ResponseNameRequired else NoMatchingCall
    else if part.inlineData.Some? then ThoughtMedia
    else EmptyPart
  }

  /** Part `k` is the first that says nothing. */
  ghost predicate FirstSilent(told: seq<Atom>, parts: seq<GeminiPart>, messageIndex: int, k: nat) {
    k < |parts| && Hear(told, parts[..k], messageIndex).Some? && Hear(told, parts[..k + 1], messageIndex).None?
  }

  /** A message that is not accepted is refused for the first of its parts that says nothing. */
  lemma {:induction false} RefusedFor(pending: Pending, seen: seq<Part>, parts: seq<GeminiPart>, messageIndex: int)
    requires Knows(pending, seen) && ReadParts(pending, parts, messageIndex).Rejected?
    ensures exists k: nat :: FirstSilent(AtomsOf(seen), parts, messageIndex, k)
                             && ReadParts(pending, parts, messageIndex).error == Complaint(parts[k])
  {
    hide Hear, Knows, AtomsOf, Take, GivenID;
    var n: nat := |parts| - 1;
    ReadIsHeard(pending, seen, parts[..n], messageIndex);
    ReadIsHeard(pending, seen, parts, messageIndex);
    if ReadParts(pending, parts[..n], messageIndex).Rejected? {
      RefusedFor(pending, seen, parts[..n], messageIndex);
      var k: nat :| FirstSilent(AtomsOf(seen), parts[..n], messageIndex, k)
                    && ReadParts(pending, parts[..n], messageIndex).error == Complaint(parts[..n][k]);
      assert parts[..n][..k] == parts[..k] && parts[..n][..k + 1] == parts[..k + 1];
      assert FirstSilent(AtomsOf(seen), parts, messageIndex, k);
    } else {
      if parts[n].response.Some? {
        TrimShape(parts[n].response.value.name);
      }
      assert parts[..n + 1] == parts;
      assert FirstSilent(AtomsOf(seen), parts, messageIndex, n);
    }
  }

  /** Two tight lists that say the same are the same. */
  lemma {:induction false} TightIsUnique(a: seq<Part>, b: seq<Part>)
    requires Tight(a) && Tight(b) && AtomsOf(a) == AtomsOf(b)
    ensures a == b
    decreases |a|
  {
    hide AtomsOf, Tight, AtomsIn;
    if a == [] {
      NoAtoms(a);
      if b != [] {
        LastAtom(b);
      }
    } else if b == [] {
      NoAtoms(b);
      LastAtom(a);
    } else {
      var p, q, c, d := a[|a| - 1], b[|b| - 1], a[..|a| - 1], b[..|b| - 1];
      LastAtom(a);
      LastAtom(b);
      AtomsLast(a);
      AtomsLast(b);
      if Loose(p) {
        SameEnd(a, b);
        SameEnd(b, a);
      }
      SameLast(AtomsOf(c), AtomsOf(d), p, q);
      TightPrefix(a);
      TightPrefix(b);
      TightIsUnique(c, d);
      assert a == c + [p] && b == d + [q];
    }
  }

  /** Equal ends may be taken off. */
  lemma SameLast(c: seq<Atom>, d: seq<Atom>, p: Part, q: Part)
    requires c + AtomsIn(p) == d + AtomsIn(q)
    requires if Loose(p) then Loose(q) && p.thought == q.thought && |p.text| == |q.text| else p == q
    ensures c == d && p == q
  {
    var x, y := AtomsIn(p), AtomsIn(q);
    assert |x| == |y| && |c| == |d|;
    assert c == (c + x)[..|c|] && d == (d + y)[..|d|] && x == (c + x)[|c|..] && y == (d + y)[|d|..];
    if Loose(p) {
      forall k | 0 <= k < |p.text| ensures p.text[k] == q.text[k] {
        assert Letters(p.thought, p.text)[k] == Letters(q.thought, q.text)[k];
      }
    }
  }

  // ----- What can be written -----

  /** The object a response is written as: itself, or whatever else it is as a result. */
  function Wrapped(raw: Raw): Json
    requires !raw.Malformed?
  {
    match raw
    case Missing => Object(map["result" := "null"])
    case Valid(json) => if json.Object? then json else Object(map["result" := json.text])
  }

  /** A part can be written unless it is of another type, or a response without a name or with
      a value that does not decode; and is written whole, a response as an object. */
  lemma WrittenAs(part: Part)
    ensures Writable(part) <==> !part.OtherPart? && (part.ToolResponse? ==> Trim(part.name) != "" && !part.response.Malformed?)
    ensures Writable(part) ==>
              WritePart(part) ==
              match part
              case Text(thought, text, signature) =>
                if text == "" && signature == "" then [] else [GeminiPart(text, thought, signature, None, None, None)]
              case Media(_, mimeType, data, signature) =>
                [GeminiPart("", false, signature, Some(InlineData(mimeType, data)), None, None)]
              case ToolCall(id, name, args, signature) => [GeminiPart("", false, signature, None, Some(FunctionCall(id, name, args)), None)]
              case ToolResponse(id, name, response) =>
                [GeminiPart("", false, "", None, None, Some(FunctionResponse(id, name, Valid(Wrapped(response)))))]
              case OtherPart(_) => []
  {
    if part.ToolResponse? {
      TrimShape(part.name);
    }
  }
}
