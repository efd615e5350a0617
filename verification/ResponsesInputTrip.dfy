/** Grouping loses nothing (internal/protocol/openai_responses.go:488-585 against 616-684): what
    is accepted, and what comes out when the messages are flattened again. */
module ResponsesInputTrip {
  import opened Canonical
  import opened ResponsesInput

  // ----- Acceptance -----

  /** What reasoning says: the parts that count. */
  function Words(thoughts: seq<Thought>): string {
    if thoughts == [] then "" else
      var last := thoughts[|thoughts| - 1];
      if last.counts then Words(thoughts[..|thoughts| - 1]) + last.text else Words(thoughts[..|thoughts| - 1])
  }

  function Reasoned(item: Item): string
    requires item.ReasoningItem?
  {
    match item.details
    case Thoughts(thoughts) => Words(item.summary) + Words(thoughts)
    case _ => Words(item.summary)
  }

  /** Content or a part that does not decode, or an item of a type that is not read. */
  predicate BadItem(item: Item) {
    match item
    case MessageItem(_, content) => content.BadContent? || (content.PartList? && BadPart in content.parts)
    case ReasoningItem(_, details, _) => details.BadThoughts?
    case OtherItem(_) => true
    case _ => false
  }

  predicate Thinks(item: Item) {
    item.ReasoningItem? && (Reasoned(item) != "" || item.encrypted != "")
  }

  lemma {:induction false} WordsAre(thoughts: seq<Thought>)
    ensures ThoughtText(thoughts) == Words(thoughts)
  {
    if thoughts != [] {
      WordsAre(thoughts[..|thoughts| - 1]);
      assert Words(thoughts[..|thoughts| - 1]) + "" == Words(thoughts[..|thoughts| - 1]);
    }
  }

  lemma ReasonedIs(item: Item)
    requires item.ReasoningItem?
    ensures ReasoningText(item) == Reasoned(item)
  {
    WordsAre(item.summary);
    if item.details.Thoughts? {
      WordsAre(item.details.thoughts);
    } else {
      assert Words(item.summary) + "" == Words(item.summary);
    }
  }

  /** What a part of a message says: text of whatever kind, or an image. */
  function Said(p: ContentPart): Part {
    match p
    case InputText(text) => Text(text)
    case OutputText(text) => Text(text)
    case RefusalText(refusal) => Text(refusal)
    case InputImage(mimeType, data) => Image(mimeType, data)
    case BadPart => OtherPart("")
  }

  function SaidAll(content: Content): seq<Part> {
    match content
    case PlainText(text) => [Text(text)]
    case PartList(parts) => seq(|parts|, k requires 0 <= k < |parts| => Said(parts[k]))
    case BadContent => []
  }

  lemma {:induction false} PartsAreSaid(parts: seq<ContentPart>)
    ensures PartsIn(parts) == if BadPart in parts then None else Some(SaidAll(PartList(parts)))
  {
    if parts == [] {
      assert SaidAll(PartList(parts)) == [];
    } else {
      var before, last := parts[..|parts| - 1], parts[|parts| - 1];
      PartsAreSaid(before);
      assert parts == before + [last];
      assert SaidAll(PartList(parts)) == SaidAll(PartList(before)) + [Said(last)];
    }
  }

  lemma ContentIsSaid(role: string, content: Content)
    ensures ContentIn(content) == if BadItem(MessageItem(role, content)) then None else Some(SaidAll(content))
  {
    if content.PartList? {
      PartsAreSaid(content.parts);
    }
  }

  /** The items end in a run of reasoning items, one of which at least is not empty. */
  predicate OpenReasoning(items: seq<Item>) {
    items != [] &&
    var last := items[|items| - 1];
    last.ReasoningItem? && (Thinks(last) || OpenReasoning(items[..|items| - 1]))
  }

  predicate Continues(item: Item) {
    item.ReasoningItem? || item.CallItem? || (item.MessageItem? && item.role == "assistant")
  }

  /** Nothing is bad in itself, and no non-empty run of reasoning is followed by anything but an
      assistant message or a function call, or ends the input. */
  predicate Proper(items: seq<Item>) {
    && (forall item <- items :: !BadItem(item))
    && (forall k | 0 <= k < |items| && OpenReasoning(items[..k]) :: Continues(items[k]))
    && !OpenReasoning(items)
  }

  predicate ProperSoFar(items: seq<Item>) {
    && (forall item <- items :: !BadItem(item))
    && (forall k | 0 <= k < |items| && OpenReasoning(items[..k]) :: Continues(items[k]))
  }

  lemma ProperSnoc(items: seq<Item>, item: Item)
    ensures ProperSoFar(items + [item]) <==> ProperSoFar(items) && !BadItem(item) && (OpenReasoning(items) ==> Continues(item))
  {
    hide BadItem, Continues, OpenReasoning;
    var more := items + [item];
    assert more[..|items|] == items && more[|items|] == item;
    assert forall i :: i in more <==> i in items || i == item;
    assert forall k | 0 <= k < |items| :: more[..k] == items[..k] && more[k] == items[k];
    if ProperSoFar(more) {
      forall k | 0 <= k < |items| && OpenReasoning(items[..k]) ensures Continues(items[k]) {
        assert OpenReasoning(more[..k]) && Continues(more[k]);
      }
      assert OpenReasoning(more[..|items|]) ==> Continues(more[|items|]);
    }
  }

  /** The loop goes on exactly while the items are proper, with reasoning waiting exactly while a
      run of it is open; calls go to the last message, if it takes them. */
  lemma {:induction false} GroupAccepts(items: seq<Item>)
    ensures Group(items).Grouping? <==> ProperSoFar(items)
    ensures Group(items).Grouping? ==>
              var g := Group(items);
              && (g.pending != [] <==> OpenReasoning(items))
              && (forall p <- g.pending :: p.Reasoning?)
              && (g.callIndex == -1 || (g.callIndex == |g.out| - 1 && g.pending == []))
              && -1 <= g.callIndex
  {
    hide ProperSoFar, ReasoningText, ContentIn, CallIn;
    if items == [] {
      assert ProperSoFar([]) by { NothingIsProper(); }
    } else {
      var before, last := items[..|items| - 1], items[|items| - 1];
      assert items == before + [last];
      GroupAccepts(before);
      ProperSnoc(before, last);
      ItemIsRead(last);
    }
  }

  lemma ItemIsRead(item: Item)
    ensures item.MessageItem? ==> (ContentIn(item.content).None? <==> BadItem(item))
    ensures item.ReasoningItem? ==> ReasoningText(item) == Reasoned(item)
  {
    if item.MessageItem? {
      ContentIsSaid(item.role, item.content);
    } else if item.ReasoningItem? {
      ReasonedIs(item);
    }
  }

  lemma NothingIsProper()
    ensures ProperSoFar([])
  {}

  /** A history is rejected exactly when an item is bad, or a non-empty run of reasoning is not
      followed directly by an assistant message or a function call. */
  lemma RejectedIff(items: seq<Item>)
    ensures InputToMessages(items).None? <==> !Proper(items)
  {
    hide Group, FillNames, OpenReasoning, BadItem, Continues;
    GroupAccepts(items);
  }

  // ----- Flattening -----

  function FlattenAll(messages: seq<Message>): Option<seq<Item>> {
    if messages == [] then Some([]) else
      match FlattenAll(messages[..|messages| - 1])
      case None => None
      case Some(before) =>
        var last := FlattenMessage(messages[|messages| - 1]);
        if last.None? then None else Some(before + last.value)
  }

  /** What one item comes back as: itself in its plain form, the output of a function quoted, and
      nothing where there is nothing to say. */
  function Back(item: Item): seq<Item> {
    match item
    case MessageItem(role, content) => if SaidAll(content) == [] then [] else [MessageItem(role, Written(SaidAll(content)))]
    case CallItem(id, callID, name, arguments) =>
      [CallItem("", if Trim(callID) != "" then callID else if Trim(id) != "" then id else "", name,
                if Trim(arguments) != "" then arguments else "{}")]
    case OutputItem(callID, output) => [OutputItem(callID, Quote(output))]
    case ReasoningItem(_, _, encrypted) =>
      if Thinks(item) then [ReasoningItem([Thought(true, Reasoned(item))], NoContent, encrypted)] else []
    case OtherItem(_) => []
  }

  /** A single text as it is, and everything else part by part. */
  function Written(parts: seq<Part>): Content {
    if |parts| == 1 && parts[0].Text? then PlainText(parts[0].text)
    else PartList(seq(|parts|, k requires 0 <= k < |parts| => WrittenPart(parts[k])))
  }

  function WrittenPart(part: Part): ContentPart {
    match part
    case Text(text) => InputText(text)
    case Image(mimeType, data) => InputImage(if Trim(mimeType) == "" then "application/octet-stream" else Trim(mimeType), data)
    case _ => BadPart
  }

  function BackAll(items: seq<Item>): seq<Item> {
    if items == [] then [] else BackAll(items[..|items| - 1]) + Back(items[|items| - 1])
  }

  /** The same, in terms of what reads and writes an item. */
  function Passed(item: Item): seq<Item> {
    match item
    case MessageItem(role, content) => if ContentIn(content).None? then [] else ContentItem(role, ContentIn(content).value)
    case CallItem(_, _, _, _) => AfterItem(CallIn(item))
    case OutputItem(callID, output) => [OutputItem(callID, Quote(output))]
    case ReasoningItem(_, _, encrypted) => if Thinks(item) then [ReasoningOut(Reasoning(ReasoningText(item), encrypted))] else []
    case OtherItem(_) => []
  }

  lemma WrittenIs(parts: seq<Part>)
    ensures ContentOut(parts) == Written(parts)
  {
    forall k | 0 <= k < |parts| ensures PartOut(parts[k]) == WrittenPart(parts[k]) {
      if parts[k].Image? {
        TrimShape(parts[k].mimeType);
      }
    }
    assert PartsOut(parts) == seq(|parts|, k requires 0 <= k < |parts| => WrittenPart(parts[k]));
  }

  lemma PassedIsBack(item: Item)
    requires !BadItem(item)
    ensures Passed(item) == Back(item)
  {
    hide IsBlank, Trim, Quote, ContentOut, Written, SaidAll, ReasoningText, Reasoned;
    match item {
      case MessageItem(role, content) =>
        ContentIsSaid(role, content);
        WrittenIs(SaidAll(content));
      case CallItem(id, callID, _, arguments) =>
        TrimShape(id);
        TrimShape(callID);
        TrimShape(arguments);
      case ReasoningItem(_, _, _) => ReasonedIs(item);
      case _ =>
    }
  }

  lemma ReadIsGood(g: Grouping, item: Item)
    requires g.Grouping? && GroupItem(g, item).Grouping?
    ensures !BadItem(item)
  {
    hide ReasoningText, ContentIn, CallIn, BadItem;
    ItemIsGood(item);
  }

  lemma ItemIsGood(item: Item)
    ensures BadItem(item) <==> match item
                               case MessageItem(_, content) => ContentIn(content).None?
                               case ReasoningItem(_, details, _) => details.BadThoughts?
                               case OtherItem(_) => true
                               case _ => false
  {
    hide ContentIn;
    ItemIsRead(item);
  }

  lemma PartSnoc(parts: seq<Part>, part: Part)
    ensures Before(parts + [part]) == if part.Reasoning? then Before(parts) + [ReasoningOut(part)] else Before(parts)
    ensures ContentParts(parts + [part]) == if part.Text? || part.Image? then ContentParts(parts) + [part] else ContentParts(parts)
    ensures After(parts + [part]) == After(parts) + AfterItem(part)
  {
    assert (parts + [part])[..|parts|] == parts;
  }

  /** A call put behind a message's parts comes out behind its items. */
  lemma FlattenWithCall(m: Message, call: Part)
    requires FlattenMessage(m).Some? && call.ToolCall?
    ensures FlattenMessage(m.(parts := m.parts + [call])) == Some(FlattenMessage(m).value + AfterItem(call))
  {
    hide AfterItem, ContentOut;
    PartSnoc(m.parts, call);
    assert Flattens(m.parts + [call]) by { assert forall p :: p in m.parts + [call] <==> p in m.parts || p == call; }
    assert Before(m.parts) + ContentItem(m.role, ContentParts(m.parts)) + (After(m.parts) + AfterItem(call))
        == Before(m.parts) + ContentItem(m.role, ContentParts(m.parts)) + After(m.parts) + AfterItem(call);
  }

  predicate IsContent(parts: seq<Part>) {
    forall p <- parts :: p.Text? || p.Image?
  }

  predicate IsReasoning(parts: seq<Part>) {
    forall p <- parts :: p.Reasoning?
  }

  lemma FlattensSnoc(parts: seq<Part>, part: Part)
    ensures Flattens(parts + [part]) <==> Flattens(parts) && !part.OtherPart?
  {
    assert forall p :: p in parts + [part] <==> p in parts || p == part;
  }

  lemma {:induction false} OnlyReasoning(reasoning: seq<Part>)
    requires IsReasoning(reasoning)
    ensures ContentParts(reasoning) == [] && After(reasoning) == [] && Flattens(reasoning)
  {
    hide Flattens;
    if reasoning == [] {
      NothingFlattens();
    } else {
      var before, last := reasoning[..|reasoning| - 1], reasoning[|reasoning| - 1];
      assert reasoning == before + [last] && last in reasoning;
      OnlyReasoning(before);
      FlattensSnoc(before, last);
    }
  }

  lemma NothingFlattens()
    ensures Flattens([])
  {}

  /** Reasoning and then content, flattened. */
  lemma {:induction false} ReasoningThenContent(reasoning: seq<Part>, content: seq<Part>)
    requires IsReasoning(reasoning) && IsContent(content)
    ensures Before(reasoning + content) == Before(reasoning)
    ensures ContentParts(reasoning + content) == content
    ensures After(reasoning + content) == [] && Flattens(reasoning + content)
    decreases |content|
  {
    hide Flattens, Before, ContentParts, After;
    OnlyReasoning(reasoning);
    if content == [] {
      assert reasoning + [] == reasoning;
    } else {
      var before, last := content[..|content| - 1], content[|content| - 1];
      assert content == before + [last] && last in content;
      ReasoningThenContent(reasoning, before);
      assert reasoning + content == reasoning + before + [last];
      PartSnoc(reasoning + before, last);
      FlattensSnoc(reasoning + before, last);
    }
  }

  lemma {:induction false} PartsInAreContent(parts: seq<ContentPart>)
    ensures PartsIn(parts).Some? ==> IsContent(PartsIn(parts).value)
  {
    if parts != [] {
      PartsInAreContent(parts[..|parts| - 1]);
    }
  }

  lemma ContentInIsContent(content: Content)
    ensures ContentIn(content).Some? ==> IsContent(ContentIn(content).value)
  {
    if content.PartList? {
      PartsInAreContent(content.parts);
    }
  }

  lemma FlattenSnoc(messages: seq<Message>, m: Message)
    requires FlattenAll(messages).Some? && FlattenMessage(m).Some?
    ensures FlattenAll(messages + [m]) == Some(FlattenAll(messages).value + FlattenMessage(m).value)
  {
    assert (messages + [m])[..|messages|] == messages;
  }

  // ----- Each item in its place -----

  /** The messages so far and the reasoning that waits say the items so far. */
  ghost predicate Says(g: Grouping, items: seq<Item>) {
    && g.Grouping? && IsReasoning(g.pending) && FlattenAll(g.out).Some?
    && FlattenAll(g.out).value + Before(g.pending) == BackAll(items)
    && (g.callIndex == -1 || (g.callIndex == |g.out| - 1 >= 0 && g.pending == []))
  }

  lemma SaysMessage(g: Grouping, items: seq<Item>, m: Message, more: seq<Item>)
    requires Says(g, items) && FlattenMessage(m) == Some(Before(g.pending) + more)
    ensures FlattenAll(g.out + [m]) == Some(BackAll(items) + more)
  {
    hide FlattenMessage, BackAll, FlattenAll, Before;
    FlattenSnoc(g.out, m);
    assert FlattenAll(g.out).value + (Before(g.pending) + more) == FlattenAll(g.out).value + Before(g.pending) + more;
  }

  lemma MessageSays(g: Grouping, items: seq<Item>, item: Item)
    requires Says(g, items) && item.MessageItem? && GroupItem(g, item).Grouping?
    ensures FlattenAll(GroupItem(g, item).out) == Some(BackAll(items) + Passed(item))
  {
    hide FlattenAll, BackAll, ContentIn, ContentOut, Before, After, ContentParts, Says;
    assert IsReasoning(g.pending) by { SaysReasoning(g, items); }
    var content := ContentIn(item.content).value;
    ContentInIsContent(item.content);
    ReasoningThenContent(g.pending, content);
    var m := Message(item.role, g.pending + content);
    assert Before(g.pending) + ContentItem(item.role, content) + [] == Before(g.pending) + ContentItem(item.role, content);
    SaysMessage(g, items, m, ContentItem(item.role, content));
  }

  lemma SaysReasoning(g: Grouping, items: seq<Item>)
    requires Says(g, items)
    ensures IsReasoning(g.pending)
  {}

  lemma CallSays(g: Grouping, items: seq<Item>, item: Item)
    requires Says(g, items) && item.CallItem?
    ensures FlattenAll(GroupItem(g, item).out) == Some(BackAll(items) + Passed(item))
  {
    hide BackAll, CallIn, AfterItem, ContentOut, FlattenMessage;
    var call := CallIn(item);
    if 0 <= g.callIndex {
      var n := |g.out| - 1;
      LastFlattens(g.out);
      FlattenWithCall(g.out[n], call);
      var m := g.out[n].(parts := g.out[n].parts + [call]);
      assert AppendTo(g.out, n, call) == g.out[..n] + [m];
      FlattenSnoc(g.out[..n], m);
      BeforeNone();
      var a, b := FlattenAll(g.out[..n]).value, FlattenMessage(g.out[n]).value;
      assert a + (b + AfterItem(call)) == a + b + AfterItem(call);
      assert a + b + [] == a + b;
      assert g.callIndex == n && GroupItem(g, item).out == g.out[..n] + [m];
    } else {
      ReasoningThenContent(g.pending, []);
      assert g.pending + [] == g.pending;
      var m := Message("assistant", g.pending);
      ReasoningFlattens(m);
      FlattenWithCall(m, call);
      SaysMessage(g, items, Message("assistant", g.pending + [call]), AfterItem(call));
    }
  }

  lemma ReasoningFlattens(m: Message)
    requires IsReasoning(m.parts)
    ensures FlattenMessage(m) == Some(Before(m.parts))
  {
    hide ContentOut, Before, After, ContentParts, Flattens;
    ReasoningThenContent(m.parts, []);
    assert m.parts + [] == m.parts;
    assert Before(m.parts) + [] + [] == Before(m.parts);
  }

  lemma LastFlattens(messages: seq<Message>)
    requires messages != [] && FlattenAll(messages).Some?
    ensures var n := |messages| - 1;
            && FlattenAll(messages[..n]).Some? && FlattenMessage(messages[n]).Some?
            && FlattenAll(messages).value == FlattenAll(messages[..n]).value + FlattenMessage(messages[n]).value
  {
    hide FlattenMessage;
  }

  lemma OutputSays(g: Grouping, items: seq<Item>, item: Item)
    requires Says(g, items) && item.OutputItem? && g.pending == []
    ensures FlattenAll(GroupItem(g, item).out) == Some(BackAll(items) + Passed(item))
  {
    hide BackAll, Quote, Trim, IsBlank;
    QuoteIsTrimmed(item.output);
    var response := ToolResponse(item.callID, "", Quote(item.output));
    var m := Message("tool", [response]);
    PartSnoc([], response);
    NothingFlattens();
    FlattensSnoc([], response);
    assert [] + [response] == [response];
    assert Before([]) == [] && ContentParts([]) == [] && After([]) == [];
    assert [] + [] + ([] + Passed(item)) == Passed(item);
    assert FlattenMessage(m) == Some(Passed(item));
    assert [] + Passed(item) == Passed(item);
    SaysMessage(g, items, m, Passed(item));
  }

  lemma {:induction false} GroupSays(items: seq<Item>)
    requires Group(items).Grouping?
    ensures Says(Group(items), items)
  {
    hide FlattenAll, Back, Passed, FlattenMessage, CallIn, ContentIn, ReasoningText, BackAll, Before;
    if items == [] {
      NothingSaid();
    } else {
      var before, item := items[..|items| - 1], items[|items| - 1];
      GroupSays(before);
      var g := Group(before);
      assert items == before + [item];
      BackSnoc(before, item);
      BeforeNone();
      ReadIsGood(g, item);
      PassedIsBack(item);
      match item {
        case MessageItem(_, _) =>
          MessageSays(g, before, item);
          assert BackAll(items) + [] == BackAll(items);
        case CallItem(_, _, _, _) =>
          CallSays(g, before, item);
          assert BackAll(items) + [] == BackAll(items);
        case OutputItem(_, _) =>
          OutputSays(g, before, item);
          assert BackAll(items) + [] == BackAll(items);
        case ReasoningItem(_, _, _) => ReasoningSays(g, before, item);
      }
    }
  }

  lemma BackSnoc(before: seq<Item>, item: Item)
    ensures BackAll(before + [item]) == BackAll(before) + Back(item)
  {
    assert (before + [item])[..|before|] == before;
  }

  lemma BeforeNone()
    ensures Before([]) == []
  {}

  lemma NothingSaid()
    ensures Says(Group([]), [])
  {}

  lemma ReasoningSays(g: Grouping, items: seq<Item>, item: Item)
    requires Says(g, items) && item.ReasoningItem? && GroupItem(g, item).Grouping?
    ensures Says(GroupItem(g, item), items + [item])
  {
    hide ReasoningText, Reasoned, FlattenAll, BackAll, Before, ContentParts, After, AfterItem;
    BackSnoc(items, item);
    ReasonedIs(item);
    if Thinks(item) {
      var part := Reasoning(ReasoningText(item), item.encrypted);
      PartSnoc(g.pending, part);
      assert FlattenAll(g.out).value + (Before(g.pending) + [ReasoningOut(part)]) == FlattenAll(g.out).value + Before(g.pending) + [ReasoningOut(part)];
    } else {
      assert BackAll(items) + [] == BackAll(items);
    }
  }

  // ----- Names change nothing here -----

  lemma {:induction false} NamedFlattens(names: Names, parts: seq<Part>)
    ensures var named := NamedParts(names, parts);
            && Before(named) == Before(parts) && ContentParts(named) == ContentParts(parts) && After(named) == After(parts)
            && (Flattens(named) <==> Flattens(parts))
  {
    hide AfterItem, Named, NamesOfParts, Flattens, Before, ContentParts, After;
    if parts == [] {
      assert NamedParts(names, parts) == parts;
    } else {
      var before, last := parts[..|parts| - 1], parts[|parts| - 1];
      NamedFlattens(names, before);
      var part := Named(NamesOfParts(names, before), last);
      NamedAlike(NamesOfParts(names, before), last);
      PartSnoc(NamedParts(names, before), part);
      PartSnoc(before, last);
      assert parts == before + [last];
      FlattensSnoc(before, last);
      FlattensSnoc(NamedParts(names, before), part);
    }
  }

  lemma NamedAlike(names: Names, part: Part)
    ensures var named := Named(names, part);
            && (named == part || (named.ToolResponse? && part.ToolResponse?)) && AfterItem(named) == AfterItem(part)
  {}

  lemma {:induction false} FilledFlattens(messages: seq<Message>)
    ensures FlattenAll(FillNames(messages)) == FlattenAll(messages)
  {
    hide NamesOf, NamedParts, Before, ContentParts, After, Flattens, ContentOut;
    if messages != [] {
      var before, last := messages[..|messages| - 1], messages[|messages| - 1];
      FilledFlattens(before);
      NamedFlattens(NamesOf(before), last.parts);
      assert FillNames(messages)[..|FillNames(before)|] == FillNames(before);
    }
  }

  // ----- The round trip -----

  /** Lossless: whatever is accepted comes back item for item in the same order. */
  lemma GroupingIsLossless(items: seq<Item>)
    requires Proper(items)
    ensures InputToMessages(items).Some?
    ensures FlattenAll(InputToMessages(items).value) == Some(BackAll(items))
  {
    hide Group, FlattenAll, BackAll, FillNames, OpenReasoning, BadItem, Continues;
    GroupAccepts(items);
    GroupSays(items);
    FilledFlattens(Group(items).out);
    BeforeNone();
    assert FlattenAll(Group(items).out).value + [] == FlattenAll(Group(items).out).value;
  }

  /** An item in plain form: it comes back as it is, but for the quoting of its output. */
  predicate Plain(item: Item) {
    match item
    case MessageItem(role, content) =>
      (content.PlainText? || (content.PartList? && content.parts != []
         && !(|content.parts| == 1 && content.parts[0].InputText?)
         && forall p <- content.parts :: p.InputText? || (p.InputImage? && PrintMime(p.mimeType) == p.mimeType)))
    case CallItem(id, callID, _, arguments) => id == "" && !IsBlank(callID) && !IsBlank(arguments)
    case OutputItem(_, _) => true
    case ReasoningItem(summary, details, encrypted) =>
      |summary| == 1 && summary[0].counts && details == NoContent && (summary[0].text != "" || encrypted != "")
    case OtherItem(_) => false
  }

  function Quoted(item: Item): Item {
    if item.OutputItem? then OutputItem(item.callID, Quote(item.output)) else item
  }

  lemma PlainParts(parts: seq<ContentPart>)
    requires parts != [] && !(|parts| == 1 && parts[0].InputText?)
    requires forall p <- parts :: p.InputText? || (p.InputImage? && PrintMime(p.mimeType) == p.mimeType)
    ensures SaidAll(PartList(parts)) != [] && Written(SaidAll(PartList(parts))) == PartList(parts)
  {
    hide PrintMime;
    var said := SaidAll(PartList(parts));
    assert |said| == |parts| && said[0] == Said(parts[0]);
    forall k | 0 <= k < |parts| ensures WrittenPart(said[k]) == parts[k] {
      assert parts[k] in parts;
      PlainPart(parts[k]);
    }
    assert Written(said) == PartList(seq(|said|, k requires 0 <= k < |said| => WrittenPart(said[k])));
    assert seq(|said|, k requires 0 <= k < |said| => WrittenPart(said[k])) == parts;
  }

  lemma PlainPart(p: ContentPart)
    requires p.InputText? || (p.InputImage? && PrintMime(p.mimeType) == p.mimeType)
    ensures WrittenPart(Said(p)) == p
  {
    if p.InputImage? {
      TrimShape(p.mimeType);
    }
  }

  lemma PlainComesBack(item: Item)
    requires Plain(item)
    ensures Back(item) == [Quoted(item)]
  {
    hide IsBlank, Quote, Trim;
    if item.MessageItem? {
      if item.content.PartList? {
        PlainParts(item.content.parts);
      }
    } else if item.CallItem? {
      TrimShape(item.callID);
      TrimShape(item.arguments);
    } else if item.ReasoningItem? {
      var s := item.summary;
      assert s[..0] == [] && Words([]) == "";
      assert Words(s) == "" + s[0].text == s[0].text;
      assert s == [Thought(true, s[0].text)];
    }
  }

  function QuotedAll(items: seq<Item>): seq<Item> {
    seq(|items|, k requires 0 <= k < |items| => Quoted(items[k]))
  }

  lemma {:induction false} PlainAllComeBack(items: seq<Item>)
    requires forall item <- items :: Plain(item)
    ensures BackAll(items) == QuotedAll(items)
  {
    hide Plain, Back, Quoted;
    if items != [] {
      var before, last := items[..|items| - 1], items[|items| - 1];
      assert items == before + [last] && last in items;
      PlainAllComeBack(before);
      PlainComesBack(last);
      assert QuotedAll(items) == QuotedAll(before) + [Quoted(last)];
    }
  }

  /** Plain items that are accepted come back the same exactly when none of them is the output of
      a function: that is quoted on the way in and not unquoted on the way out. */
  lemma SameIffNoOutputs(items: seq<Item>)
    requires Proper(items) && forall item <- items :: Plain(item)
    ensures InputToMessages(items).Some?
    ensures FlattenAll(InputToMessages(items).value) == Some(QuotedAll(items))
    ensures QuotedAll(items) == items <==> forall item <- items :: !item.OutputItem?
  {
    hide Proper, Plain, FlattenAll, InputToMessages, Quote;
    GroupingIsLossless(items);
    PlainAllComeBack(items);
    forall item | item in items && item.OutputItem?
      ensures QuotedAll(items) != items
    {
      var k :| 0 <= k < |items| && items[k] == item;
      assert |Quote(item.output)| > |item.output|;
      assert QuotedAll(items)[k] != items[k];
    }
  }

  // ----- The name of a response -----

  function PartsOf(messages: seq<Message>): seq<Part> {
    if messages == [] then [] else PartsOf(messages[..|messages| - 1]) + messages[|messages| - 1].parts
  }

  /** The name of the last call with an id and a name among some parts. */
  function LastName(parts: seq<Part>, id: string): string {
    if parts == [] then "" else
      var last := parts[|parts| - 1];
      if last.ToolCall? && last.id == id && id != "" && last.name != "" then last.name else LastName(parts[..|parts| - 1], id)
  }

  lemma {:induction false} NamesAreLast(names: Names, earlier: seq<Part>, parts: seq<Part>, id: string)
    requires NameIn(names, id) == LastName(earlier, id)
    ensures NameIn(NamesOfParts(names, parts), id) == LastName(earlier + parts, id)
  {
    if parts == [] {
      assert earlier + [] == earlier;
    } else {
      assert (earlier + parts)[..|earlier + parts| - 1] == earlier + parts[..|parts| - 1];
      NamesAreLast(names, earlier, parts[..|parts| - 1], id);
    }
  }

  lemma {:induction false} NamesOfAreLast(messages: seq<Message>, id: string)
    ensures NameIn(NamesOf(messages), id) == LastName(PartsOf(messages), id)
  {
    if messages != [] {
      NamesOfAreLast(messages[..|messages| - 1], id);
      NamesAreLast(NamesOf(messages[..|messages| - 1]), PartsOf(messages[..|messages| - 1]), messages[|messages| - 1].parts, id);
    }
  }

  /** A response without a name gets that of the latest call of its id before it, in its message or
      an earlier one; every other part stays as it is. */
  lemma {:induction false} NamedByLatestCall(messages: seq<Message>, m: nat, p: nat)
    requires m < |messages| && p < |messages[m].parts|
    ensures var filled := FillNames(messages);
            && |filled| == |messages| && |filled[m].parts| == |messages[m].parts|
            && var part := messages[m].parts[p];
               filled[m].parts[p] ==
               if part.ToolResponse? && part.name == ""
               then ToolResponse(part.id, LastName(PartsOf(messages[..m]) + messages[m].parts[..p], part.id), part.response)
               else part
    decreases |messages|
  {
    var before, last := messages[..|messages| - 1], messages[|messages| - 1];
    FilledLength(messages);
    if m < |before| {
      NamedByLatestCall(before, m, p);
      assert before[..m] == messages[..m];
    } else {
      NamedAt(NamesOf(before), last.parts, p);
      var part := last.parts[p];
      if part.ToolResponse? {
        NamesOfAreLast(before, part.id);
        NamesAreLast(NamesOf(before), PartsOf(before), last.parts[..p], part.id);
      }
    }
  }

  lemma {:induction false} FilledLength(messages: seq<Message>)
    ensures |FillNames(messages)| == |messages|
  {
    if messages != [] {
      FilledLength(messages[..|messages| - 1]);
    }
  }

  lemma {:induction false} NamedAt(names: Names, parts: seq<Part>, p: nat)
    requires p < |parts|
    ensures |NamedParts(names, parts)| == |parts|
    ensures NamedParts(names, parts)[p] == Named(NamesOfParts(names, parts[..p]), parts[p])
    decreases |parts|
  {
    var n := |parts| - 1;
    if n > 0 {
      NamedAt(names, parts[..n], if p < n then p else 0);
    }
    if p < n {
      assert parts[..n][..p] == parts[..p];
    }
  }
}
