/** A whole history there and back, and there and back again (internal/protocol/gemini.go:182,
    242-256, 279-308, 424-494, 552-610). */
module GeminiHistoryTwice {
  import opened Canonical
  import opened GeminiHistory
  import opened GeminiHistoryTrip

  // ----- Tidy parts -----

  predicate TidyPart(part: Part) {
    Writable(part) && !Drops(part) && Canon(part) == part
  }

  /** Nothing to drop, nothing to merge, nothing to trim. */
  ghost predicate IsTidy(parts: seq<Part>) {
    && (forall p <- parts :: TidyPart(p))
    && forall k | 0 < k < |parts| :: !Mergeable(parts[k - 1], parts[k])
  }

  /** Calls and responses say which call they are. */
  predicate Identified(part: Part) {
    (part.ToolCall? ==> !IsBlank(part.id) && !IsBlank(part.name)) && (part.ToolResponse? ==> !IsBlank(part.id))
  }

  predicate AllIdentified(parts: seq<Part>) {
    forall p <- parts :: Identified(p)
  }

  predicate Neat(part: Part) {
    TidyPart(part) && Identified(part)
  }

  predicate AllNeat(parts: seq<Part>) {
    forall p <- parts :: Neat(p)
  }

  lemma AllNeatAppend(a: seq<Part>, b: seq<Part>)
    ensures AllNeat(a + b) <==> AllNeat(a) && AllNeat(b)
  {
    hide Neat;
    assert forall p :: p in a + b <==> p in a || p in b;
  }

  lemma IsTidySnoc(parts: seq<Part>, part: Part)
    requires IsTidy(parts) && TidyPart(part) && (parts == [] || !Mergeable(parts[|parts| - 1], part))
    ensures IsTidy(parts + [part])
  {
    hide TidyPart, Mergeable;
  }

  lemma IsTidyPrefix(parts: seq<Part>)
    requires IsTidy(parts) && parts != []
    ensures IsTidy(parts[..|parts| - 1]) && TidyPart(parts[|parts| - 1])
    ensures |parts| > 1 ==> !Mergeable(parts[|parts| - 2], parts[|parts| - 1])
  {
    hide TidyPart, Mergeable;
  }

  lemma MergedIsTidy(a: Part, b: Part, before: Part)
    requires Mergeable(a, b) && TidyPart(a) && TidyPart(b)
    ensures var merged := Text(b.thought, a.text + b.text, "");
            Neat(merged) && (!Mergeable(before, a) ==> !Mergeable(before, merged))
  {}

  lemma JoinIsTidy(parts: seq<Part>, part: Part)
    requires IsTidy(parts) && AllNeat(parts) && Neat(part)
    ensures IsTidy(Join(parts, part)) && AllNeat(Join(parts, part))
  {
    hide TidyPart, IsTidy, Identified, AllNeat;
    OneNeat(part);
    if parts != [] && Mergeable(parts[|parts| - 1], part) {
      var n := |parts| - 1;
      IsTidyPrefix(parts);
      var merged := Text(part.thought, parts[n].text + part.text, "");
      MergedIsTidy(parts[n], part, if n > 0 then parts[n - 1] else part);
      IsTidySnoc(parts[..n], merged);
      assert Join(parts, part) == parts[..n] + [merged];
      assert parts == parts[..n] + [parts[n]];
      AllNeatAppend(parts[..n], [parts[n]]);
      OneNeat(merged);
      AllNeatAppend(parts[..n], [merged]);
    } else {
      IsTidySnoc(parts, part);
      AllNeatAppend(parts, [part]);
    }
  }

  lemma OneNeat(part: Part)
    ensures AllNeat([part]) <==> Neat(part)
  {
    assert part in [part];
  }

  // ----- What settles is neat -----

  lemma Ends(s: string)
    requires s != "" && !IsSpace(s[0]) && !IsSpace(s[|s| - 1])
    ensures Trim(s) == s && !IsBlank(s)
  {
    TrimLeftShape(s);
    TrimRightShape(s);
    assert s[0] in s;
  }

  lemma GivenIDIsTrimmed(id: string, messageIndex: int, place: nat)
    ensures var given := GivenID(id, messageIndex, place); Trim(given) == given && !IsBlank(given)
  {
    TrimShape(id);
    if IsBlank(id) {
      var given, digits := GivenID(id, messageIndex, place), FormatInt(place);
      assert digits[|digits| - 1] == Digit(place % 10) && !IsSpace(Digit(place % 10));
      assert given[|given| - 1] == digits[|digits| - 1] && given[0] == 'c';
      Ends(given);
    }
  }

  /** What waits under a name are calls of that name. */
  lemma {:induction false} WaitingAreCalls(told: seq<Part>, name: string, id: string)
    requires id in Waiting(told, name)
    ensures exists call :: call in told && call.ToolCall? && call.id == id
  {
    var n := |told| - 1;
    var before, last := told[..n], told[n];
    if last.ToolCall? && last.name == name && last.id == id {
      assert last in told;
    } else {
      WithoutIsLess(Waiting(before, name), if last.ToolResponse? then last.id else "", id);
      WaitingAreCalls(before, name, id);
      var call :| call in before && call.ToolCall? && call.id == id;
      assert call in told;
    }
  }

  lemma WithoutIsLess(ids: seq<string>, gone: string, id: string)
    ensures id in Without(ids, gone) ==> id in ids
  {}

  /** The queue is never emptier than the counts say. */
  lemma WaitingCounts(pending: Pending, told: seq<Part>, name: string)
    requires Knows(pending, told) && |ResponseIDs(told, name)| < |CallIDs(told, name)|
    ensures Waiting(told, name) != []
  {
    hide CallIDs, ResponseIDs, Waiting, Matched;
    var calls, responses, ids := CallIDs(told, name), ResponseIDs(told, name), Of(pending, name);
    assert multiset(calls) == multiset(responses) + multiset(ids);
    assert |multiset(calls)| == |calls| && |multiset(responses)| == |responses| && |multiset(ids)| == |ids|;
  }

  lemma SettleIsNeat(pending: Pending, told: seq<Part>, part: Part, messageIndex: int, place: nat)
    requires Knows(pending, told) && AllNeat(told) && Writable(part) && !Drops(part) && Follows(told, part)
    ensures Neat(Settle(told, part, messageIndex, place))
  {
    hide IsBlank, Trim, IsAudio, GivenID, Knows, CallIDs, ResponseIDs, Waiting;
    if part.ToolCall? {
      GivenIDIsTrimmed(part.id, messageIndex, place);
      TrimShape(part.name);
    } else if part.ToolResponse? {
      TrimShape(part.id);
      TrimShape(part.name);
      var name := Trim(part.name);
      if IsBlank(part.id) {
        WaitingCounts(pending, told, name);
        WaitingAreCalls(told, name, Waiting(told, name)[0]);
      }
    }
  }

  /** What a message settles to is tidy, and its calls and responses have ids. */
  lemma {:induction false} SettledIsTidy(pending: Pending, seen: seq<Part>, parts: seq<Part>, messageIndex: int)
    requires Knows(pending, seen) && AllNeat(seen) && Acceptable(seen, parts, messageIndex)
    ensures var out := Settled(seen, parts, messageIndex); IsTidy(out) && AllNeat(out)
  {
    hide Knows, IsTidy, AllNeat, Neat, Writable, Drops, Join, Settle, Follows, AllWritable, Trip;
    if parts == [] {
      NothingIsTidy();
    } else {
      var n := |parts| - 1;
      var before, last := parts[..n], parts[n];
      SettledIsTidy(pending, seen, before, messageIndex);
      AcceptableMeans(seen, parts, messageIndex);
      MessageTrips(pending, seen, before, messageIndex);
      var told := Trip(pending, before, messageIndex).value;
      assert parts == before + [last];
      WritableSnoc(before, last, parts);
      if !Drops(last) {
        AllNeatAppend(seen, told.parts);
        SettleIsNeat(told.pending, seen + told.parts, last, messageIndex, Kept(before));
        JoinIsTidy(told.parts, Settle(seen + told.parts, last, messageIndex, Kept(before)));
      }
    }
  }

  lemma NothingIsTidy()
    ensures IsTidy([]) && AllNeat([])
  {}

  // ----- What is neat settles to itself -----

  lemma NeatFollows(told: seq<Part>, part: Part, messageIndex: int, place: int)
    requires Neat(part) && Matched(told + [part])
    ensures Follows(told, part) && Settle(told, part, messageIndex, place) == part
  {
    hide CallIDs, ResponseIDs, IsBlank, Trim, IsAudio, Waiting;
    if part.ToolResponse? {
      SnocIDs(told, part, part.name);
      assert (told + [part])[..|told| + 1] == told + [part];
      assert multiset(ResponseIDs(told + [part], part.name)) <= multiset(CallIDs(told + [part], part.name));
      assert multiset(ResponseIDs(told + [part], part.name))[part.id] == multiset(ResponseIDs(told, part.name))[part.id] + 1;
    }
  }

  lemma {:induction false} NeatStays(seen: seq<Part>, parts: seq<Part>, messageIndex: int)
    requires IsTidy(parts) && AllNeat(parts) && Matched(seen + parts)
    ensures Acceptable(seen, parts, messageIndex) && Settled(seen, parts, messageIndex) == parts
  {
    hide Neat, TidyPart, Matched, Follows, Settle, Writable, Drops, Acceptable, AllNeat;
    if parts == [] {
      NothingIsAcceptable(seen, messageIndex);
    } else {
      var n := |parts| - 1;
      var before, last := parts[..n], parts[n];
      assert parts == before + [last];
      AllNeatAppend(before, [last]);
      OneNeat(last);
      IsTidyPrefix(parts);
      assert seen + parts == seen + before + [last];
      MatchedPrefix(seen + parts, |seen| + n);
      assert (seen + parts)[..|seen| + n] == seen + before;
      NeatStays(seen, before, messageIndex);
      NeatFollows(seen + before, last, messageIndex, Kept(before));
      AcceptableMeans(seen, parts, messageIndex);
      NeatKept(last);
      assert Join(before, last) == before + [last];
    }
  }

  lemma NeatKept(part: Part)
    requires Neat(part)
    ensures !Drops(part)
  {}

  lemma NothingIsAcceptable(seen: seq<Part>, messageIndex: int)
    ensures Acceptable(seen, [], messageIndex)
  {}

  // ----- With ids -----

  /** What a trip makes of a message whose calls and responses have ids: whatever was seen before and
      wherever the message stands, empty unsigned text is dropped and unsigned text merged. */
  function Tidy(parts: seq<Part>): seq<Part>
    requires AllWritable(parts)
  {
    if parts == [] then [] else
      var before, last := Tidy(parts[..|parts| - 1]), parts[|parts| - 1];
      if Drops(last) then before else Join(before, Canon(last))
  }

  lemma {:induction false} SettledWithIDs(seen: seq<Part>, parts: seq<Part>, messageIndex: int)
    requires AllWritable(parts) && AllIdentified(parts)
    ensures Settled(seen, parts, messageIndex) == Tidy(parts)
  {
    hide IsBlank, Trim, IsAudio, Waiting, Join;
    if parts != [] {
      var before, last := parts[..|parts| - 1], parts[|parts| - 1];
      assert last in parts && forall p :: p in before ==> p in parts;
      SettledWithIDs(seen, before, messageIndex);
      assert Settle(seen + Settled(seen, before, messageIndex), last, messageIndex, Kept(before)) == Canon(last);
    }
  }

  // ----- Histories -----

  function Flat(messages: seq<seq<Part>>): seq<Part> {
    if messages == [] then [] else Flat(messages[..|messages| - 1]) + messages[|messages| - 1]
  }

  function SettledOf(seen: seq<Part>, parts: seq<Part>, messageIndex: int): seq<Part> {
    if AllWritable(parts) then Settled(seen, parts, messageIndex) else []
  }

  /** Each message settled after those before it. */
  function SettledAll(messages: seq<seq<Part>>): (out: seq<seq<Part>>)
    ensures |out| == |messages|
  {
    if messages == [] then [] else
      var n := |messages| - 1;
      var before := SettledAll(messages[..n]);
      before + [SettledOf(Flat(before), messages[n], n)]
  }

  ghost predicate AcceptableAll(messages: seq<seq<Part>>) {
    messages == [] ||
    var n := |messages| - 1;
    AcceptableAll(messages[..n]) && Acceptable(Flat(SettledAll(messages[..n])), messages[n], n)
  }

  datatype Journey = Journey(pending: Pending, messages: seq<seq<Part>>)

  /** Writes each message and reads it back, with one resolver for all. */
  function TripAll(messages: seq<seq<Part>>): Option<Journey> {
    if messages == [] then Some(Journey(map[], [])) else
      var n := |messages| - 1;
      match TripAll(messages[..n])
      case None => None
      case Some(j) =>
        match Trip(j.pending, messages[n], n)
        case None => None
        case Some(r) => Some(Journey(r.pending, j.messages + [r.parts]))
  }

  lemma FlatSnoc(messages: seq<seq<Part>>, message: seq<Part>)
    ensures Flat(messages + [message]) == Flat(messages) + message
  {
    assert (messages + [message])[..|messages|] == messages;
  }

  /** The round trip: a history is accepted exactly when it can be written, its calls have names and
      every response has an earlier call of its own, across messages; and each message comes back
      settled after those before it. */
  lemma {:induction false} HistoryTrips(messages: seq<seq<Part>>)
    ensures TripAll(messages).Some? <==> AcceptableAll(messages)
    ensures AcceptableAll(messages) ==>
              var j := TripAll(messages).value;
              j.messages == SettledAll(messages) && Knows(j.pending, Flat(j.messages))
  {
    hide Trip, Acceptable, Knows, Settled, AllWritable;
    if messages == [] {
      NothingKnown();
    } else {
      var n := |messages| - 1;
      var before, last := messages[..n], messages[n];
      HistoryTrips(before);
      if AcceptableAll(before) {
        var j := TripAll(before).value;
        MessageTrips(j.pending, Flat(j.messages), last, n);
        if Acceptable(Flat(j.messages), last, n) {
          FlatSnoc(j.messages, Settled(Flat(j.messages), last, n));
        }
      }
    }
  }

  lemma NothingKnown()
    ensures Knows(map[], Flat([]))
  {}

  /** What a history comes back as is tidy message by message, and acceptable as it is. */
  lemma {:induction false} SettledAllStays(messages: seq<seq<Part>>)
    requires AcceptableAll(messages)
    ensures var once := SettledAll(messages);
            AcceptableAll(once) && SettledAll(once) == once && AllNeat(Flat(once))
  {
    hide Acceptable, Knows, Settled, AllNeat, AllWritable, IsTidy;
    if messages == [] {
      NothingIsTidy();
    } else {
      var n := |messages| - 1;
      var before, last := messages[..n], messages[n];
      SettledAllStays(before);
      HistoryTrips(before);
      HistoryTrips(messages);
      var seen, pending := Flat(SettledAll(before)), TripAll(before).value.pending;
      var out := Settled(seen, last, n);
      var once := SettledAll(messages);
      assert once == SettledAll(before) + [out] && once[..n] == SettledAll(before);
      FlatSnoc(SettledAll(before), out);
      SettledIsTidy(pending, seen, last, n);
      AllNeatAppend(seen, out);
      assert Matched(seen + out) by { KnowsMatched(TripAll(messages).value.pending, Flat(once)); }
      NeatStays(seen, out, n);
      assert SettledAll(once) == SettledAll(once[..n]) + [SettledOf(seen, out, n)];
    }
  }

  lemma KnowsMatched(pending: Pending, told: seq<Part>)
    requires Knows(pending, told)
    ensures Matched(told)
  {}

  /** A second trip changes nothing. */
  lemma SecondTrip(messages: seq<seq<Part>>)
    requires TripAll(messages).Some?
    ensures var once := TripAll(messages).value.messages;
            TripAll(once).Some? && TripAll(once).value.messages == once
  {
    hide TripAll, SettledAll, AcceptableAll;
    HistoryTrips(messages);
    SettledAllStays(messages);
    HistoryTrips(SettledAll(messages));
  }
}
