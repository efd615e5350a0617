/** Which items of a Responses request share a message (internal/protocol/openai_responses.go:500-585):
    reasoning goes with what follows it, and calls that follow each other directly stay together. */
module ResponsesInputRuns {
  import opened Canonical
  import opened ResponsesInput
  import opened ResponsesInputTrip

  /** Items cut into runs, each of which becomes a message, and the reasoning that waits for one. */
  datatype Runs = Runs(whole: seq<seq<Item>>, waiting: seq<Item>) {
    /** The last item had a call in it, and nothing has come after it. */
    predicate EndsInCall() {
      waiting == [] && whole != [] && whole[|whole| - 1] != [] && whole[|whole| - 1][|whole[|whole| - 1]| - 1].CallItem?
    }

    function Extended(item: Item): Runs
      requires EndsInCall()
    {
      Runs(whole[..|whole| - 1] + [whole[|whole| - 1] + [item]], [])
    }
  }

  function RunsOf(items: seq<Item>): Runs {
    if items == [] then Runs([], []) else
      var runs, item := RunsOf(items[..|items| - 1]), items[|items| - 1];
      if item.ReasoningItem? then Runs(runs.whole, runs.waiting + [item])
      else if item.CallItem? && runs.EndsInCall() then runs.Extended(item)
      else Runs(runs.whole + [runs.waiting + [item]], [])
  }

  /** What one item puts into its message. */
  function PartsFor(item: Item): seq<Part> {
    match item
    case MessageItem(_, content) => SaidAll(content)
    case CallItem(id, callID, name, arguments) =>
      [ToolCall(if Trim(callID) != "" then callID else if Trim(id) != "" then id else "", name,
                if Trim(arguments) != "" then arguments else "{}")]
    case OutputItem(callID, output) => [ToolResponse(callID, "", Quote(output))]
    case ReasoningItem(_, _, encrypted) => if Thinks(item) then [Reasoning(Reasoned(item), encrypted)] else []
    case OtherItem(_) => []
  }

  function PartsForAll(items: seq<Item>): seq<Part> {
    if items == [] then [] else PartsForAll(items[..|items| - 1]) + PartsFor(items[|items| - 1])
  }

  /** The message of a run: of the role of its last item, which is the one that is not reasoning. */
  function MessageFor(run: seq<Item>): Message
    requires run != []
  {
    var last := run[|run| - 1];
    Message(if last.MessageItem? then last.role else if last.CallItem? then "assistant" else "tool", PartsForAll(run))
  }

  predicate AllRuns(whole: seq<seq<Item>>) {
    forall k | 0 <= k < |whole| :: whole[k] != []
  }

  function MessagesFor(whole: seq<seq<Item>>): seq<Message>
    requires AllRuns(whole)
  {
    seq(|whole|, k requires 0 <= k < |whole| => MessageFor(whole[k]))
  }

  lemma PartsSnoc(items: seq<Item>, item: Item)
    ensures PartsForAll(items + [item]) == PartsForAll(items) + PartsFor(item)
  {
    assert (items + [item])[..|items|] == items;
  }

  lemma CallPart(item: Item)
    requires item.CallItem?
    ensures PartsFor(item) == [CallIn(item)]
  {
    TrimShape(item.id);
    TrimShape(item.callID);
    TrimShape(item.arguments);
  }

  /** The loop stands where the runs say. */
  ghost predicate Stands(g: Grouping, runs: Runs) {
    && g.Grouping? && AllRuns(runs.whole) && g.out == MessagesFor(runs.whole) && g.pending == PartsForAll(runs.waiting)
    && g.callIndex == if runs.EndsInCall() then |g.out| - 1 else -1
  }

  /** A run more. */
  lemma NewRun(g: Grouping, runs: Runs, item: Item, g': Grouping, parts: seq<Part>)
    requires Stands(g, runs) && !item.ReasoningItem? && parts == PartsFor(item)
    requires g' == Grouping(g.out + [Message(if item.MessageItem? then item.role else if item.CallItem? then "assistant" else "tool",
                                             g.pending + parts)],
                            [], if item.CallItem? then |g.out| else -1)
    ensures Stands(g', Runs(runs.whole + [runs.waiting + [item]], []))
  {
    hide PartsFor;
    var run := runs.waiting + [item];
    PartsSnoc(runs.waiting, item);
    var whole := runs.whole + [run];
    assert MessagesFor(whole) == MessagesFor(runs.whole) + [MessageFor(run)];
    assert whole[|whole| - 1] == run && run[|run| - 1] == item;
    assert PartsForAll([]) == [];
  }

  /** A call more in the last run. */
  lemma LongerRun(g: Grouping, runs: Runs, item: Item)
    requires Stands(g, runs) && item.CallItem? && runs.EndsInCall()
    ensures Stands(g.(out := AppendTo(g.out, |g.out| - 1, CallIn(item))), runs.Extended(item))
  {
    hide PartsFor, CallIn;
    var n := |runs.whole| - 1;
    var run := runs.whole[n] + [item];
    PartsSnoc(runs.whole[n], item);
    CallPart(item);
    var whole := runs.whole[..n] + [run];
    assert runs.Extended(item).whole == whole && whole[|whole| - 1] == run && run[|run| - 1] == item;
    var out := AppendTo(g.out, n, CallIn(item));
    assert out[n] == MessageFor(run);
    assert MessagesFor(whole) == out;
  }

  lemma Waits(g: Grouping, runs: Runs, item: Item)
    requires Stands(g, runs) && item.ReasoningItem? && GroupItem(g, item).Grouping?
    ensures Stands(GroupItem(g, item), Runs(runs.whole, runs.waiting + [item]))
  {
    hide ReasoningText, Reasoned;
    PartsSnoc(runs.waiting, item);
    ReasonedIs(item);
    if !Thinks(item) {
      assert PartsForAll(runs.waiting) + [] == PartsForAll(runs.waiting);
    }
  }

  lemma {:induction false} GroupStands(items: seq<Item>)
    requires Group(items).Grouping?
    ensures Stands(Group(items), RunsOf(items))
  {
    hide Stands, CallIn, ContentIn, ReasoningText, PartsFor, Runs.EndsInCall, Runs.Extended;
    if items == [] {
      NothingStands();
    } else {
      var before, item := items[..|items| - 1], items[|items| - 1];
      GroupStands(before);
      var g, runs := Group(before), RunsOf(before);
      CallIndexIs(g, runs);
      match item {
        case MessageItem(role, content) =>
          ContentIsSaid(role, content);
          ReadIsGood(g, item);
          MessagePart(item);
          NewRun(g, runs, item, GroupItem(g, item), ContentIn(content).value);
        case CallItem(_, _, _, _) =>
          CallPart(item);
          if runs.EndsInCall() {
            LongerRun(g, runs, item);
          } else {
            NewRun(g, runs, item, GroupItem(g, item), [CallIn(item)]);
          }
        case OutputItem(callID, output) =>
          OutputPart(item);
          assert [] + [ToolResponse(callID, "", Quote(output))] == [ToolResponse(callID, "", Quote(output))];
          NewRun(g, runs, item, GroupItem(g, item), [ToolResponse(callID, "", Quote(output))]);
        case ReasoningItem(_, _, _) => Waits(g, runs, item);
      }
    }
  }

  lemma NothingStands()
    ensures Stands(Group([]), RunsOf([]))
  {}

  lemma MessagePart(item: Item)
    requires item.MessageItem?
    ensures PartsFor(item) == SaidAll(item.content)
  {}

  lemma OutputPart(item: Item)
    requires item.OutputItem?
    ensures PartsFor(item) == [ToolResponse(item.callID, "", Quote(item.output))]
  {}

  lemma CallIndexIs(g: Grouping, runs: Runs)
    requires Stands(g, runs)
    ensures g.callIndex == (if runs.EndsInCall() then |g.out| - 1 else -1) && (runs.EndsInCall() ==> g.out != [])
  {}

  /** What a proper input is read as: one message for each run, of the role and the parts its
      items say, with the names of responses filled in. */
  lemma RunsAreMessages(items: seq<Item>)
    requires Proper(items)
    ensures AllRuns(RunsOf(items).whole)
    ensures InputToMessages(items) == Some(FillNames(MessagesFor(RunsOf(items).whole)))
  {
    hide Group, OpenReasoning, BadItem, Continues, RunsOf, MessagesFor, FillNames;
    GroupAccepts(items);
    GroupStands(items);
  }
}
