/** The canonical event stream every upstream protocol is read into and every
    client protocol is written from (internal/protocol/canonical.go), and its
    meaning: what text, what reasoning and which tool calls a stream stands for.

    The meaning is defined on streams alone. Readers and encoders are related to
    it; none of them is used to define it. */
module Canonical {

  datatype Option<+T> = None | Some(value: T)

  datatype Usage = Usage(prompt: int, completion: int, total: int, cached: int, reasoning: int) {
    predicate IsZero() {
      prompt == 0 && completion == 0 && total == 0 && cached == 0 && reasoning == 0
    }
  }

  const NO_USAGE := Usage(0, 0, 0, 0, 0)

  datatype ErrorData = ErrorData(code: string, message: string)

  datatype Event =
    | ResponseStart(id: string, created: int, model: string)
    | MessageStart(index: int, role: string)
    | TextDelta(index: int, delta: string)
    | RefusalDelta(index: int, delta: string)
    | ReasoningDelta(index: int, delta: string, signature: string)
    | ToolStart(index: int, callID: string, name: string, signature: string)
    | ToolDelta(index: int, callID: string, name: string, delta: string)
    | ToolDone(index: int, callID: string, name: string, arguments: string, signature: string)
    | UsageReport(usage: Usage)
    | ResponseDone(status: string, finishReason: string)
    | StreamError(error: Option<ErrorData>)
  {
    predicate IsTool() { ToolStart? || ToolDelta? || ToolDone? }
    predicate IsTerminal() { ResponseDone? || StreamError? }
  }

  predicate NoTerminal(events: seq<Event>) {
    forall e <- events :: !e.IsTerminal()
  }

  function FirstNonEmpty(a: string, b: string): string {
    if a != "" then a else b
  }

  /** Go's unicode.IsSpace. */
  predicate IsSpace(c: char) {
    c in {'\t', '\n', '\U{0B}', '\U{0C}', '\r', ' ', '\U{85}', '\U{A0}', '\U{1680}',
          '\U{2028}', '\U{2029}', '\U{202F}', '\U{205F}', '\U{3000}'}
    || '\U{2000}' <= c <= '\U{200A}'
  }

  /** strings.TrimSpace(s) == "". */
  predicate IsBlank(s: string) {
    forall c <- s :: IsSpace(c)
  }

  function TrimLeft(s: string): string {
    if s != "" && IsSpace(s[0]) then TrimLeft(s[1..]) else s
  }

  function TrimRight(s: string): string {
    if s != "" && IsSpace(s[|s| - 1]) then TrimRight(s[..|s| - 1]) else s
  }

  /** strings.TrimSpace. */
  function Trim(s: string): string {
    TrimRight(TrimLeft(s))
  }

  lemma {:induction false} TrimLeftShape(s: string)
    ensures IsBlank(TrimLeft(s)) <==> IsBlank(s)
    ensures TrimLeft(s) != "" ==> !IsSpace(TrimLeft(s)[0])
    ensures s != "" && !IsSpace(s[0]) ==> TrimLeft(s) == s
  {
    if s != "" && IsSpace(s[0]) {
      assert forall c :: c in s <==> c == s[0] || c in s[1..];
      TrimLeftShape(s[1..]);
    }
  }

  lemma {:induction false} TrimRightShape(s: string)
    ensures IsBlank(TrimRight(s)) <==> IsBlank(s)
    ensures TrimRight(s) <= s
    ensures TrimRight(s) != "" ==> !IsSpace(TrimRight(s)[|TrimRight(s)| - 1])
    ensures s != "" && !IsSpace(s[|s| - 1]) ==> TrimRight(s) == s
  {
    if s != "" && IsSpace(s[|s| - 1]) {
      assert forall c :: c in s <==> c == s[|s| - 1] || c in s[..|s| - 1];
      TrimRightShape(s[..|s| - 1]);
    }
  }

  /** Trimming keeps blankness, and a trimmed string is trimmed. */
  lemma TrimShape(s: string)
    ensures IsBlank(Trim(s)) <==> IsBlank(s)
    ensures Trim(s) == "" <==> IsBlank(s)
    ensures Trim(Trim(s)) == Trim(s)
  {
    TrimLeftShape(s);
    var l := TrimLeft(s);
    TrimRightShape(l);
    var t := TrimRight(l);
    if t == "" {
      assert Trim(s) == "";
    } else {
      assert t[0] == l[0] && !IsSpace(t[0]) && t[0] in t;
      TrimLeftShape(t);
      TrimRightShape(t);
    }
  }

  /** strings.ToLower on ASCII. */
  function ToLower(s: string): string {
    seq(|s|, k requires 0 <= k < |s| => if 'A' <= s[k] <= 'Z' then s[k] - 'A' + 'a' else s[k])
  }

  function Digit(n: nat): char
    requires n < 10
  {
    "0123456789"[n]
  }

  function Decimal(n: nat): string {
    (if n < 10 then "" else Decimal(n / 10)) + [Digit(n % 10)]
  }

  /** fmt's %d. */
  function FormatInt(n: int): string {
    if n < 0 then "-" + Decimal(-n) else Decimal(n)
  }

  lemma {:induction false} DecimalInjective(m: nat, n: nat)
    requires Decimal(m) == Decimal(n)
    ensures m == n
  {
    var d, e := Decimal(m), Decimal(n);
    assert d[|d| - 1] == Digit(m % 10) && e[|e| - 1] == Digit(n % 10);
    assert "0123456789"[m % 10] == "0123456789"[n % 10];
    assert d[..|d| - 1] == e[..|e| - 1];
    assert d[..|d| - 1] == (if m < 10 then "" else Decimal(m / 10));
    assert e[..|e| - 1] == (if n < 10 then "" else Decimal(n / 10));
    if 10 <= m && 10 <= n {
      DecimalInjective(m / 10, n / 10);
    }
  }

  lemma {:induction false} DecimalIsDigits(n: nat)
    ensures '-' !in Decimal(n) && ':' !in Decimal(n) && Decimal(n) != ""
  {
    assert forall c <- "0123456789" :: c != '-' && c != ':';
    assert Digit(n % 10) in "0123456789";
    if n >= 10 {
      DecimalIsDigits(n / 10);
    }
  }

  lemma FormatInjective(m: int, n: int)
    requires FormatInt(m) == FormatInt(n)
    ensures m == n
  {
    if m < 0 && n < 0 {
      assert FormatInt(m)[1..] == Decimal(-m) && FormatInt(n)[1..] == Decimal(-n);
      DecimalInjective(-m, -n);
    } else if m < 0 {
      DecimalIsDigits(n);
    } else if n < 0 {
      DecimalIsDigits(m);
    } else {
      DecimalInjective(m, n);
    }
  }

  // ----- Text -----

  function TextOf(events: seq<Event>): string {
    if events == [] then "" else
      var e := events[|events| - 1];
      TextOf(events[..|events| - 1]) + if e.TextDelta? then e.delta else ""
  }

  function RefusalOf(events: seq<Event>): string {
    if events == [] then "" else
      var e := events[|events| - 1];
      RefusalOf(events[..|events| - 1]) + if e.RefusalDelta? then e.delta else ""
  }

  /** Text and refusal deltas together, in stream order. */
  function SpokenOf(events: seq<Event>): string {
    if events == [] then "" else
      var e := events[|events| - 1];
      SpokenOf(events[..|events| - 1]) + if e.TextDelta? || e.RefusalDelta? then e.delta else ""
  }

  /** Whether the first non-empty text or refusal delta is a refusal. */
  predicate OpensWithRefusal(events: seq<Event>) {
    events != [] &&
    var e := events[|events| - 1];
    var before := events[..|events| - 1];
    if SpokenOf(before) != "" then OpensWithRefusal(before) else e.RefusalDelta? && e.delta != ""
  }

  function ReasoningOf(events: seq<Event>): string {
    if events == [] then "" else
      var e := events[|events| - 1];
      ReasoningOf(events[..|events| - 1]) + if e.ReasoningDelta? then e.delta else ""
  }

  function SignatureOf(events: seq<Event>): string {
    if events == [] then "" else
      var e := events[|events| - 1];
      SignatureOf(events[..|events| - 1]) + if e.ReasoningDelta? then e.signature else ""
  }

  /** The last usage report of a stream. */
  function UsageOf(events: seq<Event>): Usage {
    if events == [] then NO_USAGE else
      var e := events[|events| - 1];
      if e.UsageReport? then e.usage else UsageOf(events[..|events| - 1])
  }

  // ----- Tool calls -----

  /** What a stream says about one tool index. */
  datatype Call =
    | Unseen
    | Open(id: string, name: string, arguments: string)
    | Closed(id: string, name: string, arguments: string)
  {
    function Close(): Call {
      if Open? then Closed(id, name, arguments) else this
    }
  }

  function CallStep(call: Call, e: Event): Call
    requires e.IsTool()
  {
    match e
    case ToolStart(_, id, name, _) =>
      (match call
       case Unseen => Open(id, name, "")
       case Open(i, n, a) => Open(FirstNonEmpty(i, id), FirstNonEmpty(n, name), a)
       case Closed(_, _, _) => call)
    case ToolDelta(_, id, name, delta) =>
      (match call
       case Unseen => Open(id, name, delta)
       case Open(i, n, a) => Open(i, n, a + delta)
       case Closed(_, _, _) => call)
    case ToolDone(_, id, name, arguments, _) =>
      (match call
       case Unseen => Closed(id, name, arguments)
       case Open(i, n, a) => Closed(FirstNonEmpty(i, id), FirstNonEmpty(n, name), FirstNonEmpty(arguments, a))
       case Closed(_, _, _) => call)
  }

  /** The tool call a stream builds at index `i`: opened by its first event, fed by
      the deltas before its first Done, closed by that Done. */
  function CallAt(events: seq<Event>, i: int): Call {
    if events == [] then Unseen else
      var e := events[|events| - 1];
      var call := CallAt(events[..|events| - 1], i);
      if e.IsTool() && e.index == i then CallStep(call, e) else call
  }

  /** Tool indices in the order in which the stream first mentions them. */
  function ToolOrder(events: seq<Event>): seq<int> {
    if events == [] then [] else
      var e := events[|events| - 1];
      var order := ToolOrder(events[..|events| - 1]);
      if e.IsTool() && e.index !in order then order + [e.index] else order
  }

  /** Tool indices that have a Start. */
  function Started(events: seq<Event>): set<int> {
    if events == [] then {} else
      var e := events[|events| - 1];
      Started(events[..|events| - 1]) + if e.ToolStart? then {e.index} else {}
  }

  /** A Start is the first event of its index, and a Done the first Done: so no
      index has two Starts or two Dones. */
  ghost predicate OnceEach(events: seq<Event>) {
    forall p | 0 <= p < |events| ::
      && (events[p].ToolStart? ==> CallAt(events[..p], events[p].index).Unseen?)
      && (events[p].ToolDone? ==> !CallAt(events[..p], events[p].index).Closed?)
  }

  /** The first event of every tool index carries a call id that is not blank. */
  ghost predicate IdsNonBlank(events: seq<Event>) {
    forall p | 0 <= p < |events| && events[p].IsTool() ::
      CallAt(events[..p], events[p].index).Unseen? ==> !IsBlank(events[p].callID)
  }

  // ----- One event more -----

  lemma Snoc(events: seq<Event>, e: Event)
    ensures (events + [e])[..|events|] == events
    ensures TextOf(events + [e]) == if e.TextDelta? then TextOf(events) + e.delta else TextOf(events)
    ensures RefusalOf(events + [e]) == if e.RefusalDelta? then RefusalOf(events) + e.delta else RefusalOf(events)
    ensures ReasoningOf(events + [e]) == if e.ReasoningDelta? then ReasoningOf(events) + e.delta else ReasoningOf(events)
    ensures SignatureOf(events + [e]) == if e.ReasoningDelta? then SignatureOf(events) + e.signature else SignatureOf(events)
    ensures UsageOf(events + [e]) == if e.UsageReport? then e.usage else UsageOf(events)
    ensures Started(events + [e]) == Started(events) + if e.ToolStart? then {e.index} else {}
    ensures ToolOrder(events + [e]) ==
            if e.IsTool() && e.index !in ToolOrder(events) then ToolOrder(events) + [e.index] else ToolOrder(events)
  {
    assert (events + [e])[..|events|] == events && (events + [e])[|events|] == e;
  }

  lemma SnocSpoken(events: seq<Event>, e: Event)
    ensures SpokenOf(events + [e]) == if e.TextDelta? || e.RefusalDelta? then SpokenOf(events) + e.delta else SpokenOf(events)
    ensures OpensWithRefusal(events + [e]) ==
            if SpokenOf(events) != "" then OpensWithRefusal(events) else e.RefusalDelta? && e.delta != ""
  {
    assert (events + [e])[..|events|] == events;
  }

  lemma SnocCall(events: seq<Event>, e: Event, i: int)
    ensures CallAt(events + [e], i) ==
            if e.IsTool() && e.index == i then CallStep(CallAt(events, i), e) else CallAt(events, i)
  {
    assert (events + [e])[..|events|] == events;
  }

  lemma SnocOnceEach(events: seq<Event>, e: Event)
    requires OnceEach(events)
    requires e.ToolStart? ==> CallAt(events, e.index).Unseen?
    requires e.ToolDone? ==> !CallAt(events, e.index).Closed?
    ensures OnceEach(events + [e])
  {
    var longer := events + [e];
    forall p | 0 <= p < |longer|
      ensures longer[p].ToolStart? ==> CallAt(longer[..p], longer[p].index).Unseen?
      ensures longer[p].ToolDone? ==> !CallAt(longer[..p], longer[p].index).Closed?
    {
      assert longer[..p] == events[..p];
      if p == |events| {
        assert events[..p] == events;
      }
    }
  }

  /** An index has been mentioned exactly when it is in the tool order, once. */
  lemma {:induction false} ToolOrderIsSeen(events: seq<Event>)
    ensures forall i :: i in ToolOrder(events) <==> !CallAt(events, i).Unseen?
    ensures forall k, l | 0 <= k < l < |ToolOrder(events)| :: ToolOrder(events)[k] != ToolOrder(events)[l]
  {
    if events != [] {
      ToolOrderIsSeen(events[..|events| - 1]);
    }
  }

  /** When every call is closed and nothing is repeated, every mentioned index has
      exactly one Done: there is one, and any two are the same. */
  lemma {:induction false} ExactlyOneDone(events: seq<Event>, i: int)
    requires OnceEach(events) && CallAt(events, i).Closed?
    ensures exists p :: IsOnlyDone(events, i, p)
  {
    var n := |events| - 1;
    var e, before := events[n], events[..n];
    if e.ToolDone? && e.index == i {
      forall q | 0 <= q < n && events[q].ToolDone? && events[q].index == i ensures false {
        assert events[..q + 1] == events[..q] + [events[q]];
        SnocCall(events[..q], events[q], i);
        ClosedStays(events, i, q + 1, n);
      }
      assert IsOnlyDone(events, i, n);
    } else {
      forall p | 0 <= p < |before| ensures before[..p] == events[..p] {}
      ExactlyOneDone(before, i);
      var p :| IsOnlyDone(before, i, p);
      assert IsOnlyDone(events, i, p);
    }
  }

  ghost predicate IsOnlyDone(events: seq<Event>, i: int, p: int) {
    && 0 <= p < |events| && events[p].ToolDone? && events[p].index == i
    && forall q | 0 <= q < |events| && events[q].ToolDone? && events[q].index == i :: q == p
  }

  lemma {:induction false} ClosedStays(events: seq<Event>, i: int, lo: nat, hi: nat)
    requires lo <= hi <= |events| && CallAt(events[..lo], i).Closed?
    ensures CallAt(events[..hi], i) == CallAt(events[..lo], i)
    decreases hi
  {
    if lo < hi {
      ClosedStays(events, i, lo, hi - 1);
      assert events[..hi] == events[..hi - 1] + [events[hi - 1]];
      SnocCall(events[..hi - 1], events[hi - 1], i);
    }
  }
}
