/** What an upstream sends about one tool index, gathered fragment by fragment, and the
    tracker that gathers it (internal/stream_convert.go:1428-1535). A gathering knows nothing
    of trackers and events: the readers are followed with it along the upstream's own frames. */
module Gatherings {
  import opened Canonical
  import opened ToolTracker

  /** The first id and the first name that are not empty, the last signature that is not, and
      the arguments so far; gathered for good once the call is done, but that a call done
      without an id may become `known` by a later one. */
  datatype Gathering =
    | NotSeen
    | Gathering(id: string, name: string, signature: string, text: string)
    | Gathered(id: string, name: string, signature: string, text: string, known: string)
  {
    /** Mentioned again. */
    function Mention(id': string, name': string, signature': string): Gathering {
      match this
      case NotSeen => Gathering(id', name', signature', "")
      case Gathering(_, _, _, _) =>
        Gathering(if id == "" then id' else id, if name == "" then name' else name,
                  if signature' == "" then signature else signature', text)
      case Gathered(_, _, _, _, _) => if known == "" then this.(known := id') else this
    }

    /** Given more of the arguments. */
    function Feed(fragment: string): Gathering {
      if Gathering? then Gathering(id, name, signature, text + fragment) else this
    }

    /** Done, with all of the arguments or with those gathered. */
    function End(arguments: string): Gathering {
      if Gathering? then Gathered(id, name, signature, if arguments == "" then text else arguments, id) else this
    }
  }

  /** The signature the Done of a tool index carries. */
  function DoneSignature(events: seq<Event>, i: int): Option<string> {
    if events == [] then None else
      var e, before := events[|events| - 1], DoneSignature(events[..|events| - 1], i);
      if before.None? && e.ToolDone? && e.index == i then Some(e.signature) else before
  }

  lemma SnocSignature(events: seq<Event>, e: Event, i: int)
    ensures DoneSignature(events + [e], i) ==
            if DoneSignature(events, i).None? && e.ToolDone? && e.index == i then Some(e.signature) else DoneSignature(events, i)
  {
    assert (events + [e])[..|events|] == events;
  }

  /** The tracker and the events hold what was gathered for index `i`. */
  ghost predicate Holds(t: Tracker, events: seq<Event>, i: int, g: Gathering) {
    match g
    case NotSeen => i !in t.byIndex && DoneSignature(events, i).None?
    case Gathering(id, name, signature, text) =>
      i in t.byIndex && t.byIndex[i] == ToolState(id, name, signature, text, false) && DoneSignature(events, i).None?
    case Gathered(id, name, signature, text, known) =>
      && i in t.byIndex && t.byIndex[i].done && t.byIndex[i].callID == known
      && CallAt(events, i) == Closed(id, name, text) && DoneSignature(events, i) == Some(signature)
  }

  /** For every index, whatever the upstream has sent. */
  ghost predicate HoldsAll(t: Tracker, events: seq<Event>, g: int -> Gathering) {
    && Tracks(t, events)
    && forall i :: Holds(t, events, i, g(i))
  }

  /** A call mentioned is open with the arguments gathered, or closed as gathered. */
  lemma HoldsCall(t: Tracker, events: seq<Event>, i: int, g: Gathering)
    requires Tracks(t, events) && Holds(t, events, i, g)
    ensures match g
            case NotSeen => CallAt(events, i).Unseen?
            case Gathering(_, _, _, text) => CallAt(events, i).Open? && CallAt(events, i).arguments == text
            case Gathered(id, name, _, text, _) => CallAt(events, i) == Closed(id, name, text)
  {
    ToolOrderIsSeen(events);
    OrderMatchesMap(t, events);
    assert g.Gathering? ==> Agrees(t.byIndex[i], CallAt(events, i));
  }

  // ----- One event of the tracker -----

  lemma OthersHold(t: Tracker, events: seq<Event>, t': Tracker, e: Event, i: int, g: Gathering)
    requires Holds(t, events, i, g) && !(e.IsTool() && e.index == i)
    requires (i in t'.byIndex <==> i in t.byIndex) && (i in t.byIndex ==> t'.byIndex[i] == t.byIndex[i])
    ensures Holds(t', events + [e], i, g)
  {
    hide CallAt, DoneSignature;
    SnocCall(events, e, i);
    SnocSignature(events, e, i);
  }

  /** Events about other things. */
  lemma OtherHolds(t: Tracker, events: seq<Event>, e: Event, g: int -> Gathering)
    requires HoldsAll(t, events, g) && !e.IsTool()
    ensures HoldsAll(t, events + [e], g)
  {
    hide Tracks, Holds;
    TracksOther(t, events, e);
    forall i ensures Holds(t, events + [e], i, g(i)) {
      OthersHold(t, events, t, e, i, g(i));
    }
  }

  lemma StartHolds(t: Tracker, events: seq<Event>, index: int, id: string, name: string, signature: string,
                   g: int -> Gathering, g': int -> Gathering)
    requires HoldsAll(t, events, g) && t.Valid()
    requires forall i :: g'(i) == if i == index then g(i).Mention(id, name, signature) else g(i)
    ensures var s := Start(t, index, id, name, signature); HoldsAll(s.0, events + Opt(s.1), g')
  {
    hide Tracks, Holds, CallAt, DoneSignature;
    var s := Start(t, index, id, name, signature);
    TracksStart(t, events, index, id, name, signature);
    if s.1.None? {
      assert events + Opt(s.1) == events;
    }
    forall i ensures Holds(s.0, events + Opt(s.1), i, g'(i)) {
      if i != index && s.1.Some? {
        OthersHold(t, events, s.0, s.1.value, i, g(i));
      } else if i != index {
        SameHolds(t, s.0, events, i, g(i));
      } else {
        StartedHolds(t, events, index, id, name, signature, g(i));
      }
    }
  }

  lemma SameHolds(t: Tracker, t': Tracker, events: seq<Event>, i: int, g: Gathering)
    requires Holds(t, events, i, g) && (i in t'.byIndex <==> i in t.byIndex) && (i in t.byIndex ==> t'.byIndex[i] == t.byIndex[i])
    ensures Holds(t', events, i, g)
  {}

  lemma StartedHolds(t: Tracker, events: seq<Event>, i: int, id: string, name: string, signature: string, g: Gathering)
    requires Holds(t, events, i, g) && t.Valid()
    ensures var s := Start(t, i, id, name, signature); Holds(s.0, events + Opt(s.1), i, g.Mention(id, name, signature))
  {
    hide CallAt, DoneSignature;
    var s := Start(t, i, id, name, signature);
    if s.1.Some? {
      SnocSignature(events, s.1.value, i);
    } else {
      assert events + Opt(s.1) == events;
    }
  }

  lemma DeltaHolds(t: Tracker, events: seq<Event>, index: int, id: string, name: string, fragment: string,
                   g: int -> Gathering, g': int -> Gathering)
    requires HoldsAll(t, events, g) && t.Valid()
    requires forall i :: g'(i) == if i == index then g(i).Mention(id, name, "").Feed(fragment) else g(i)
    ensures var d := Delta(t, index, id, name, fragment); HoldsAll(d.0, events + [d.1], g')
  {
    hide Tracks, Holds, CallAt, DoneSignature;
    var d := Delta(t, index, id, name, fragment);
    TracksDelta(t, events, index, id, name, fragment);
    forall i ensures Holds(d.0, events + [d.1], i, g'(i)) {
      if i != index {
        OthersHold(t, events, d.0, d.1, i, g(i));
      } else {
        FedHolds(t, events, index, id, name, fragment, g(i));
      }
    }
  }

  lemma FedHolds(t: Tracker, events: seq<Event>, i: int, id: string, name: string, fragment: string, g: Gathering)
    requires Holds(t, events, i, g) && t.Valid()
    ensures var d := Delta(t, i, id, name, fragment); Holds(d.0, events + [d.1], i, g.Mention(id, name, "").Feed(fragment))
  {
    hide CallAt, DoneSignature;
    var d := Delta(t, i, id, name, fragment);
    SnocSignature(events, d.1, i);
    SnocCall(events, d.1, i);
    assert "" + fragment == fragment;
  }

  lemma DoneHolds(t: Tracker, events: seq<Event>, index: int, id: string, name: string, arguments: string, signature: string,
                  g: int -> Gathering, g': int -> Gathering)
    requires HoldsAll(t, events, g) && t.Valid()
    requires forall i :: g'(i) == if i == index then g(i).Mention(id, name, signature).End(arguments) else g(i)
    ensures var d := Done(t, index, id, name, arguments, signature); HoldsAll(d.0, events + Opt(d.1), g')
  {
    hide Tracks, Holds, CallAt, DoneSignature;
    var d := Done(t, index, id, name, arguments, signature);
    TracksDone(t, events, index, id, name, arguments, signature);
    if d.1.None? {
      assert events + Opt(d.1) == events;
    }
    forall i ensures Holds(d.0, events + Opt(d.1), i, g'(i)) {
      if i != index && d.1.Some? {
        OthersHold(t, events, d.0, d.1.value, i, g(i));
      } else if i != index {
        SameHolds(t, d.0, events, i, g(i));
      } else {
        EndedHolds(t, events, index, id, name, arguments, signature, g(i));
      }
    }
  }

  lemma EndedHolds(t: Tracker, events: seq<Event>, i: int, id: string, name: string, arguments: string, signature: string, g: Gathering)
    requires Tracks(t, events) && Holds(t, events, i, g) && t.Valid()
    ensures var d := Done(t, i, id, name, arguments, signature);
            Holds(d.0, events + Opt(d.1), i, g.Mention(id, name, signature).End(arguments))
  {
    hide CallAt, DoneSignature, Tracks;
    var d := Done(t, i, id, name, arguments, signature);
    if d.1.Some? {
      OpenAgrees(t, events, i, g);
      SnocSignature(events, d.1.value, i);
      SnocCall(events, d.1.value, i);
    } else {
      assert events + Opt(d.1) == events;
    }
  }

  /** Of a call not done the events show nothing the tracker does not have. */
  lemma OpenAgrees(t: Tracker, events: seq<Event>, i: int, g: Gathering)
    requires Tracks(t, events) && Holds(t, events, i, g)
    ensures g.NotSeen? ==> CallAt(events, i).Unseen?
    ensures g.Gathering? ==>
              var call := CallAt(events, i);
              call.Open? && call.arguments == g.text && call.id in {"", g.id} && call.name in {"", g.name}
  {
    hide CallAt;
    ToolOrderIsSeen(events);
    OrderMatchesMap(t, events);
    assert g.Gathering? ==> Agrees(t.byIndex[i], CallAt(events, i));
  }

  // ----- Closing all calls -----

  lemma {:induction false} DoneFirstHolds(t: Tracker, events: seq<Event>, n: nat, g: int -> Gathering, g': int -> Gathering)
    requires HoldsAll(t, events, g) && t.Valid() && n <= |t.order|
    requires forall i :: g'(i) == if i in t.order[..n] then g(i).End("") else g(i)
    ensures HoldsAll(DoneFirst(t, n).0, events + DoneFirst(t, n).1, g')
  {
    hide Tracks, Holds, Done, HoldsAll, DoneFirst;
    DoneFirstNext(t, n);
    if n == 0 {
      assert events + [] == events && t.order[..0] == [];
      SameGatherings(t, events, g, g');
    } else {
      var f := i => if i in t.order[..n - 1] then g(i).End("") else g(i);
      DoneFirstHolds(t, events, n - 1, g, f);
      NextInOrder(t, n);
      OrderIsTracked(DoneFirst(t, n - 1).0, n - 1);
      NextHolds(DoneFirst(t, n - 1), events, t.order[n - 1], f, g');
    }
  }

  lemma DoneFirstNext(t: Tracker, n: nat)
    requires t.Valid() && n <= |t.order|
    ensures n == 0 ==> DoneFirst(t, n) == (t, [])
    ensures n > 0 ==>
              var before := DoneFirst(t, n - 1);
              var last := Done(before.0, t.order[n - 1], "", "", "", "");
              DoneFirst(t, n) == (last.0, before.1 + Opt(last.1))
  {
    hide Done;
  }

  lemma NextHolds(before: (Tracker, seq<Event>), events: seq<Event>, j: int, g: int -> Gathering, g': int -> Gathering)
    requires HoldsAll(before.0, events + before.1, g) && before.0.Valid() && j in before.0.byIndex
    requires forall i :: g'(i) == if i == j then g(i).End("") else g(i)
    ensures var last := Done(before.0, j, "", "", "", "");
            HoldsAll(last.0, events + (before.1 + Opt(last.1)), g')
  {
    hide HoldsAll, Done;
    NotAnew(before.0, events + before.1, j, g);
    DoneHolds(before.0, events + before.1, j, "", "", "", "", g, g');
    var last := Done(before.0, j, "", "", "", "");
    assert events + (before.1 + Opt(last.1)) == events + before.1 + Opt(last.1);
  }

  lemma SameGatherings(t: Tracker, events: seq<Event>, g: int -> Gathering, g': int -> Gathering)
    requires HoldsAll(t, events, g) && forall i :: g'(i) == g(i)
    ensures HoldsAll(t, events, g')
  {}

  lemma NextInOrder(t: Tracker, n: nat)
    requires t.Valid() && 0 < n <= |t.order|
    ensures t.order[n - 1] !in t.order[..n - 1] && t.order[..n] == t.order[..n - 1] + [t.order[n - 1]]
  {}

  /** Of a tracked call nothing new is said by an empty mention. */
  lemma NotAnew(t: Tracker, events: seq<Event>, i: int, g: int -> Gathering)
    requires HoldsAll(t, events, g)
    ensures i in t.byIndex ==> g(i).Mention("", "", "") == g(i) && !g(i).NotSeen?
  {
    hide Tracks;
    assert Holds(t, events, i, g(i));
  }

  /** doneAll ends every gathering. */
  lemma DoneAllHolds(t: Tracker, events: seq<Event>, g: int -> Gathering, g': int -> Gathering)
    requires HoldsAll(t, events, g) && t.Valid() && forall i :: g'(i) == g(i).End("")
    ensures HoldsAll(DoneAll(t).0, events + DoneAll(t).1, g')
  {
    hide Tracks, DoneFirst;
    assert t.order[..|t.order|] == t.order;
    OrderMatchesMap(t, events);
    forall i ensures g'(i) == if i in t.order then g(i).End("") else g(i) {
      assert Holds(t, events, i, g(i));
    }
    DoneFirstHolds(t, events, |t.order|, g, g');
  }

  /** The Done of a call that was gathered: the only one, with the last signature. */
  ghost predicate IsDone(events: seq<Event>, i: int, g: Gathering)
    requires !g.NotSeen?
  {
    CallAt(events, i) == Closed(g.id, g.name, g.text) && exists p :: IsOnlyDone(events, i, p) && events[p].signature == g.signature
  }

  lemma OnlyDone(events: seq<Event>, i: int, g: Gathering)
    requires OnceEach(events) && g.Gathered? && CallAt(events, i) == Closed(g.id, g.name, g.text)
    requires DoneSignature(events, i) == Some(g.signature)
    ensures IsDone(events, i, g)
  {
    ExactlyOneDone(events, i);
    var p :| IsOnlyDone(events, i, p);
    SignatureOfDone(events, i, p);
  }

  /** An index whose gathering has ended is done, and another is not mentioned. */
  lemma DoneTold(t: Tracker, events: seq<Event>, i: int, g: int -> Gathering)
    requires HoldsAll(t, events, g) && !g(i).Gathering?
    ensures if g(i).NotSeen? then CallAt(events, i).Unseen? else IsDone(events, i, g(i))
  {
    hide CallAt, DoneSignature, IsDone;
    assert Holds(t, events, i, g(i));
    HoldsCall(t, events, i, g(i));
    if g(i).Gathered? {
      OnlyDone(events, i, g(i));
    }
  }

  lemma {:induction false} SignatureOfDone(events: seq<Event>, i: int, p: int)
    requires IsOnlyDone(events, i, p)
    ensures DoneSignature(events, i) == Some(events[p].signature)
  {
    var n := |events| - 1;
    if p < n {
      SignatureOfDone(events[..n], i, p);
    } else {
      NoSignature(events[..n], i);
    }
  }

  lemma {:induction false} NoSignature(events: seq<Event>, i: int)
    requires forall q | 0 <= q < |events| :: !(events[q].ToolDone? && events[q].index == i)
    ensures DoneSignature(events, i).None?
  {
    if events != [] {
      NoSignature(events[..|events| - 1], i);
    }
  }

  // ----- What is said besides -----

  /** What events say that are not about calls: the words, the last usage, and as they come
      the openings of the response and its messages, finishes and errors. */
  datatype Said = Said(text: string, refusal: string, reasoning: string, signature: string, usage: Usage, notices: seq<Event>)

  const NOTHING_SAID := Said("", "", "", "", NO_USAGE, [])

  function Notices(events: seq<Event>): seq<Event> {
    if events == [] then [] else
      var e := events[|events| - 1];
      Notices(events[..|events| - 1]) + if e.ResponseStart? || e.MessageStart? || e.IsTerminal() then [e] else []
  }

  ghost predicate Says(events: seq<Event>, s: Said) {
    && TextOf(events) == s.text && RefusalOf(events) == s.refusal && ReasoningOf(events) == s.reasoning
    && SignatureOf(events) == s.signature && UsageOf(events) == s.usage && Notices(events) == s.notices
  }

  lemma NothingSaid()
    ensures Says([], NOTHING_SAID)
  {}

  /** One event more. */
  function Saying(s: Said, e: Event): Said {
    match e
    case TextDelta(_, delta) => s.(text := s.text + delta)
    case RefusalDelta(_, delta) => s.(refusal := s.refusal + delta)
    case ReasoningDelta(_, delta, signature) => s.(reasoning := s.reasoning + delta, signature := s.signature + signature)
    case UsageReport(usage) => s.(usage := usage)
    case ResponseStart(_, _, _) => s.(notices := s.notices + [e])
    case MessageStart(_, _) => s.(notices := s.notices + [e])
    case StreamError(_) => s.(notices := s.notices + [e])
    case ResponseDone(_, _) => s.(notices := s.notices + [e])
    case _ => s
  }

  lemma SaysNext(events: seq<Event>, e: Event, s: Said)
    requires Says(events, s)
    ensures Says(events + [e], Saying(s, e))
  {
    hide TextOf, RefusalOf, ReasoningOf, SignatureOf, UsageOf;
    Snoc(events, e);
    assert (events + [e])[..|events|] == events;
  }

  /** Events about calls say nothing else. */
  lemma {:induction false} SaysCalls(events: seq<Event>, more: seq<Event>, s: Said)
    requires Says(events, s) && forall e <- more :: e.IsTool()
    ensures Says(events + more, s)
  {
    hide Says;
    if more == [] {
      assert events + more == events;
    } else {
      var before, e := more[..|more| - 1], more[|more| - 1];
      assert e in more;
      SaysCalls(events, before, s);
      SaysNext(events + before, e, s);
      assert events + before + [e] == events + more;
    }
  }

  lemma {:induction false} DoneFirstIsTools(t: Tracker, n: nat)
    requires t.Valid() && n <= |t.order|
    ensures forall e <- DoneFirst(t, n).1 :: e.ToolDone?
  {
    if n > 0 {
      DoneFirstIsTools(t, n - 1);
    }
  }
}
