/** The numbered events of a streamed response, and a client that reads them. */
module ResponseEvents {
  import opened Prelude

  /** What an item stands for. For a tool it is the upstream index, which no event
      carries: it only tells the calls apart here. */
  datatype Source = Reasoning | Message | Tool(n: int)

  /** A finished item: its text, or for a tool the final arguments. */
  datatype Item = Item(source: Source, id: string, name: string, text: string)

  datatype Body =
    | Created
    | ItemAdded(source: Source, id: string, name: string, index: int)
    | SummaryPartAdded(id: string, index: int)
    | Delta(source: Source, id: string, index: int, text: string, contentIndex: int)
    | SummaryTextDone(id: string, index: int, text: string)
    | SummaryPartDone(id: string, index: int, text: string)
    | ArgumentsDone(source: Source, id: string, name: string, index: int, arguments: string)
    | ItemDone(index: int, item: Item)
    | Completed(output: seq<Item>)
    | Failed(error: string)

  /** The arguments a call finishes with, made from its name and text. None when that raises. */
  type Optimizer = (string, string) -> Option<string>

  datatype Event = Event(number: int, body: Body)

  /** Numbers run 1, 2, 3, ... without a gap. */
  ghost predicate Numbered(out: seq<Event>) {
    forall i :: 0 <= i < |out| ==> out[i].number == i + 1
  }

  // ---------------------------------------------------------------- the client

  /** A call as the client has it: the id and the name it was announced with, its argument
      deltas before it was done and those that still came after, what it was told to be done
      with, and the item it was done with. `steady` says that all of it came under one id. */
  datatype ToolView = ToolView(
    added: nat,
    deltas: int,
    id: string,
    announced: string,
    sent: string,
    late: string,
    steady: bool,
    told: Option<Item>,
    finished: Option<Item>)

  datatype Block = Block(text: string, deltas: int)

  /** How far the events of a block of thoughts are: its item is added, its one summary part is
      open, the text is done, the part is done. */
  datatype Stage = Added | Opened | TextDone | PartDone

  datatype Thinking = Thinking(text: string, deltas: int, stage: Stage)

  /** What a client has put together from the events so far. `ok` goes false for good
      at the first event it has no place for. */
  datatype View = View(
    ok: bool,
    tools: map<int, ToolView>,
    open: Option<Thinking>,
    blocks: seq<string>,
    messages: nat,
    message: Block,
    messageDone: Option<string>,
    items: seq<Item>)

  const NO_TOOL := ToolView(0, 0, "", "", "", "", true, None, None)

  /** A call that was just announced. */
  function NewTool(id: string, name: string, args: string): ToolView {
    ToolView(1, if args == "" then 0 else 1, id, name, args, "", true, None, None)
  }

  const NOTHING := View(true, map[], None, [], 0, Block("", 0), None, [])

  function Lookup(tools: map<int, ToolView>, n: int): ToolView {
    if n in tools then tools[n] else NO_TOOL
  }

  function ToolOf(v: View, n: int): ToolView {
    Lookup(v.tools, n)
  }

  function SetTool(v: View, n: int, t: ToolView): View {
    v.(tools := v.tools[n := t])
  }

  function Check(v: View, good: bool): View {
    if good then v else v.(ok := false)
  }

  function OnAdded(v: View, source: Source, id: string, name: string): View {
    match source
    case Reasoning => Check(v, v.open.None?).(open := Some(Thinking("", 0, Added)))
    case Message => Check(v, v.messages == 0).(messages := v.messages + 1)
    case Tool(n) =>
      var t := ToolOf(v, n);
      SetTool(Check(v, t.added == 0 && name != ""), n, t.(added := t.added + 1, id := id, announced := name))
  }

  /** A delta counts for the item only if the call is not done yet. */
  function MoreArgs(t: ToolView, id: string, text: string): ToolView {
    var u := t.(deltas := t.deltas + 1, steady := t.steady && id == t.id);
    if t.finished.None? then u.(sent := t.sent + text) else u.(late := t.late + text)
  }

  /** The arguments of a call that is not done yet are told once, before its item. */
  function OnTold(v: View, n: int, item: Item, optimize: Optimizer): View {
    var t := ToolOf(v, n);
    var good := t.added == 1 && t.finished.None? && t.told.None? && optimize(item.name, t.sent) == Some(item.text);
    SetTool(Check(v, good), n, t.(told := Some(item)))
  }

  function OnDelta(v: View, source: Source, id: string, text: string, contentIndex: int): View {
    match source
    case Reasoning =>
      if v.open.None? then v.(ok := false)
      else
        var b := v.open.value;
        Check(v, b.stage.Opened? && contentIndex == b.deltas)
        .(open := Some(Thinking(b.text + text, b.deltas + 1, b.stage)))
    case Message =>
      Check(v, v.messages == 1 && v.messageDone.None? && contentIndex == v.message.deltas)
      .(message := Block(v.message.text + text, v.message.deltas + 1))
    case Tool(n) =>
      var t := ToolOf(v, n);
      SetTool(Check(v, t.added == 1 && contentIndex == t.deltas + 1), n, MoreArgs(t, id, text))
  }

  function Finished(t: ToolView, item: Item): ToolView {
    t.(finished := Some(item), told := Some(item), steady := t.steady && item.id == t.id)
  }

  /** A call's final arguments are the optimized form of the text sent for it until then. */
  function OnDone(v: View, item: Item, optimize: Optimizer): View {
    var w := v.(items := v.items + [item]);
    match item.source
    case Reasoning =>
      if v.open.None? then v.(ok := false)
      else
        Check(w, v.open.value.stage.PartDone? && item.text == v.open.value.text)
        .(open := None, blocks := v.blocks + [item.text])
    case Message =>
      Check(w, v.messages == 1 && v.messageDone.None?).(messageDone := Some(item.text))
    case Tool(n) =>
      var t := ToolOf(v, n);
      var good := t.added == 1 && t.finished.None? && t.told == Some(item)
                  && optimize(item.name, t.sent) == Some(item.text);
      SetTool(Check(w, good), n, Finished(t, item))
  }

  /** The next stage of a block with this text. */
  function Advance(v: View, now: Stage, text: string, next: Stage): View {
    if v.open.None? then v.(ok := false)
    else
      var b := v.open.value;
      Check(v, b.stage == now && b.text == text).(open := Some(b.(stage := next)))
  }

  /** How the client takes one event. Every index it reads must be the number of items
      finished so far. */
  function Take(v: View, body: Body, optimize: Optimizer): View {
    match body
    case Created => v
    case ItemAdded(source, id, name, index) => OnAdded(Check(v, index == |v.items|), source, id, name)
    case SummaryPartAdded(id, index) => Advance(Check(v, index == |v.items|), Added, "", Opened)
    case Delta(source, id, index, text, contentIndex) =>
      OnDelta(Check(v, index == |v.items|), source, id, text, contentIndex)
    case SummaryTextDone(id, index, text) =>
      Advance(Check(v, index == |v.items|), Opened, text, TextDone)
    case SummaryPartDone(id, index, text) =>
      Advance(Check(v, index == |v.items|), TextDone, text, PartDone)
    case ArgumentsDone(source, id, name, index, arguments) =>
      if !source.Tool? then v.(ok := false)
      else OnTold(Check(v, index == |v.items|), source.n, Item(source, id, name, arguments), optimize)
    case ItemDone(index, item) => OnDone(Check(v, index == |v.items|), item, optimize)
    case Completed(output) => Check(v, output == v.items && v.open.None?)
    case Failed(error) => v
  }

  function Read(out: seq<Event>, optimize: Optimizer): View {
    if out == [] then NOTHING
    else Take(Read(out[..|out| - 1], optimize), out[|out| - 1].body, optimize)
  }

  function TakeAll(v: View, bodies: seq<Body>, optimize: Optimizer): View
    decreases |bodies|
  {
    if bodies == [] then v else TakeAll(Take(v, bodies[0], optimize), bodies[1..], optimize)
  }

  // ---------------------------------------------------------------- numbering

  /** Events made one after another, the counter threaded through. */
  function NumberEach(bodies: seq<Body>, number: int): seq<Event> {
    seq(|bodies|, i requires 0 <= i < |bodies| => Event(number + 1 + i, bodies[i]))
  }

  lemma NumberFirst(bodies: seq<Body>, number: int)
    requires bodies != []
    ensures NumberEach(bodies, number) == [Event(number + 1, bodies[0])] + NumberEach(bodies[1..], number + 1)
  {
  }

  /** Sending numbered events on keeps the numbering, and the client reads their bodies in turn. */
  lemma {:induction false} SendMore(out: seq<Event>, bodies: seq<Body>, optimize: Optimizer)
    requires Numbered(out)
    ensures Numbered(out + NumberEach(bodies, |out|))
    ensures Read(out + NumberEach(bodies, |out|), optimize) == TakeAll(Read(out, optimize), bodies, optimize)
    decreases |bodies|
  {
    if bodies == [] {
      assert out + NumberEach(bodies, |out|) == out;
    } else {
      var next := out + [Event(|out| + 1, bodies[0])];
      assert next[..|out|] == out;
      SendMore(next, bodies[1..], optimize);
      NumberFirst(bodies, |out|);
      assert out + NumberEach(bodies, |out|) == next + NumberEach(bodies[1..], |next|);
    }
  }

  // ---------------------------------------------------------------- the events of one happening

  /** `_process_init_reasoning_events` */
  function ThoughtOpened(id: string, index: int): seq<Body> {
    [ItemAdded(Reasoning, id, "", index), SummaryPartAdded(id, index)]
  }

  /** `_process_stop_reasoning_events` */
  function ThoughtDone(id: string, index: int, text: string): seq<Body> {
    [SummaryTextDone(id, index, text), SummaryPartDone(id, index, text),
     ItemDone(index, Item(Reasoning, id, "", text))]
  }

  /** An announced call, with the arguments that were there before its name. */
  function CallAdded(n: int, id: string, name: string, index: int, args: string): seq<Body> {
    [ItemAdded(Tool(n), id, name, index)] + (if args == "" then [] else [Delta(Tool(n), id, index, args, 1)])
  }

  /** `_process_stop_tool_call_events` */
  function CallDone(n: int, id: string, name: string, index: int, arguments: string): seq<Body> {
    [ArgumentsDone(Tool(n), id, name, index, arguments), ItemDone(index, Item(Tool(n), id, name, arguments))]
  }

  lemma TakeOne(v: View, body: Body, optimize: Optimizer)
    ensures TakeAll(v, [body], optimize) == Take(v, body, optimize)
  {
    assert [body][1..] == [];
  }

  lemma TakeTwo(v: View, a: Body, b: Body, optimize: Optimizer)
    ensures TakeAll(v, [a, b], optimize) == Take(Take(v, a, optimize), b, optimize)
  {
    assert [a, b][1..] == [b];
    TakeOne(Take(v, a, optimize), b, optimize);
  }

  lemma TakeThoughtOpened(v: View, id: string, optimize: Optimizer)
    requires v.ok && v.open.None?
    ensures TakeAll(v, ThoughtOpened(id, |v.items|), optimize) == v.(open := Some(Thinking("", 0, Opened)))
  {
    TakeTwo(v, ItemAdded(Reasoning, id, "", |v.items|), SummaryPartAdded(id, |v.items|), optimize);
  }

  lemma TakeThoughtDone(v: View, id: string, text: string, optimize: Optimizer)
    requires v.ok && v.open.Some? && v.open.value.text == text && v.open.value.stage.Opened?
    ensures TakeAll(v, ThoughtDone(id, |v.items|, text), optimize)
         == v.(open := None, blocks := v.blocks + [text], items := v.items + [Item(Reasoning, id, "", text)])
  {
    var bodies := ThoughtDone(id, |v.items|, text);
    assert bodies[1..] == [bodies[1], bodies[2]];
    TakeTwo(Take(v, bodies[0], optimize), bodies[1], bodies[2], optimize);
  }

  lemma TakeCallAdded(v: View, n: int, id: string, name: string, args: string, optimize: Optimizer)
    requires v.ok && ToolOf(v, n) == NO_TOOL && name != ""
    ensures TakeAll(v, CallAdded(n, id, name, |v.items|, args), optimize)
         == SetTool(v, n, NewTool(id, name, args))
  {
    var bodies := CallAdded(n, id, name, |v.items|, args);
    if args == "" {
      TakeOne(v, bodies[0], optimize);
    } else {
      var a, b := ItemAdded(Tool(n), id, name, |v.items|), Delta(Tool(n), id, |v.items|, args, 1);
      assert bodies == [a, b];
      TakeTwo(v, a, b, optimize);
      var w := Take(v, a, optimize);
      assert w == SetTool(v, n, NewTool(id, name, ""));
      assert "" + args == args;
      var t := NewTool(id, name, args);
      assert SetTool(w, n, t) == SetTool(v, n, t);
    }
  }

  lemma TakeCallDone(v: View, n: int, id: string, name: string, arguments: string, optimize: Optimizer)
    requires v.ok && ToolOf(v, n).added == 1 && ToolOf(v, n).finished.None? && ToolOf(v, n).told.None?
    requires optimize(name, ToolOf(v, n).sent) == Some(arguments)
    ensures TakeAll(v, CallDone(n, id, name, |v.items|, arguments), optimize)
         == SetTool(v.(items := v.items + [Item(Tool(n), id, name, arguments)]), n,
                    Finished(ToolOf(v, n), Item(Tool(n), id, name, arguments)))
  {
    var bodies := CallDone(n, id, name, |v.items|, arguments);
    var item := Item(Tool(n), id, name, arguments);
    TakeTwo(v, bodies[0], bodies[1], optimize);
    var w := Take(v, bodies[0], optimize);
    assert w == SetTool(v, n, ToolOf(v, n).(told := Some(item)));
    assert Finished(ToolOf(w, n), item) == Finished(ToolOf(v, n), item);
  }

  // ---------------------------------------------------------------- the id of a call

  /** An event about call `n`. */
  predicate About(body: Body, n: int) {
    match body
    case ItemAdded(source, _, _, _) => source == Tool(n)
    case Delta(source, _, _, _, _) => source == Tool(n)
    case ArgumentsDone(source, _, _, _, _) => source == Tool(n)
    case ItemDone(_, item) => item.source == Tool(n)
    case _ => false
  }

  function IdOf(body: Body, n: int): string
    requires About(body, n)
  {
    match body
    case ItemAdded(_, id, _, _) => id
    case Delta(_, id, _, _, _) => id
    case ArgumentsDone(_, id, _, _, _) => id
    case ItemDone(_, item) => item.id
  }

  predicate AllUnder(out: seq<Event>, n: int, id: string) {
    forall i :: 0 <= i < |out| && About(out[i].body, n) ==> IdOf(out[i].body, n) == id
  }

  predicate NoneAbout(out: seq<Event>, n: int) {
    forall i :: 0 <= i < |out| ==> !About(out[i].body, n)
  }

  /** Everything of the call came under the id it was announced with. */
  predicate OneId(t: ToolView) {
    t.steady && (t.told.Some? ==> t.told.value.id == t.id)
  }

  /** One more event that the client accepts, for one call. */
  lemma TakeId(v: View, body: Body, optimize: Optimizer, n: int)
    requires v.ok && Take(v, body, optimize).ok
    ensures !About(body, n) ==> ToolOf(Take(v, body, optimize), n) == ToolOf(v, n)
    ensures About(body, n) ==> ToolOf(Take(v, body, optimize), n).added == 1
    ensures ToolOf(v, n).added > 0 ==> ToolOf(Take(v, body, optimize), n).id == ToolOf(v, n).id
    ensures About(body, n) && OneId(ToolOf(Take(v, body, optimize), n))
            && (ToolOf(v, n).added == 0 ==> ToolOf(v, n) == NO_TOOL) ==>
              OneId(ToolOf(v, n)) && IdOf(body, n) == ToolOf(Take(v, body, optimize), n).id
    ensures ToolOf(Take(v, body, optimize), n).added == 0 ==> ToolOf(Take(v, body, optimize), n) == ToolOf(v, n)
  {
  }

  /** A call that is steady for the client went by one id in every event about it. */
  lemma {:induction false} UnderOneId(out: seq<Event>, optimize: Optimizer, n: int)
    requires Read(out, optimize).ok
    ensures ToolOf(Read(out, optimize), n).added == 0 ==> ToolOf(Read(out, optimize), n) == NO_TOOL && NoneAbout(out, n)
    ensures OneId(ToolOf(Read(out, optimize), n)) ==> AllUnder(out, n, ToolOf(Read(out, optimize), n).id)
  {
    if out != [] {
      var init, body := out[..|out| - 1], out[|out| - 1].body;
      if Read(init, optimize).ok {
        UnderOneId(init, optimize, n);
        TakeId(Read(init, optimize), body, optimize, n);
      } else {
        NeverOkAgain(Read(init, optimize), body, optimize);
      }
    }
  }

  // ---------------------------------------------------------------- ids of thoughts and message

  predicate IdFits(source: Source, id: string, reasoningId: string, messageId: string) {
    (source.Reasoning? ==> id == reasoningId) && (source.Message? ==> id == messageId)
  }

  predicate AllFit(items: seq<Item>, reasoningId: string, messageId: string) {
    forall i :: 0 <= i < |items| ==> IdFits(items[i].source, items[i].id, reasoningId, messageId)
  }

  /** Whatever an event says of thoughts or of the message, it says under the one id of those. */
  predicate BodyFits(body: Body, reasoningId: string, messageId: string) {
    match body
    case ItemAdded(source, id, _, _) => IdFits(source, id, reasoningId, messageId)
    case SummaryPartAdded(id, _) => id == reasoningId
    case Delta(source, id, _, _, _) => IdFits(source, id, reasoningId, messageId)
    case SummaryTextDone(id, _, _) => id == reasoningId
    case SummaryPartDone(id, _, _) => id == reasoningId
    case ItemDone(_, item) => IdFits(item.source, item.id, reasoningId, messageId)
    case Completed(output) => AllFit(output, reasoningId, messageId)
    case _ => true
  }

  predicate BodiesFit(bodies: seq<Body>, reasoningId: string, messageId: string) {
    forall i :: 0 <= i < |bodies| ==> BodyFits(bodies[i], reasoningId, messageId)
  }

  predicate EventsFit(out: seq<Event>, reasoningId: string, messageId: string) {
    forall i :: 0 <= i < |out| ==> BodyFits(out[i].body, reasoningId, messageId)
  }

  lemma FitMore(out: seq<Event>, bodies: seq<Body>, reasoningId: string, messageId: string)
    requires EventsFit(out, reasoningId, messageId) && BodiesFit(bodies, reasoningId, messageId)
    ensures EventsFit(out + NumberEach(bodies, |out|), reasoningId, messageId)
  {
  }

  lemma {:induction false} ItemsFit(out: seq<Event>, reasoningId: string, messageId: string, optimize: Optimizer)
    requires EventsFit(out, reasoningId, messageId)
    ensures AllFit(Read(out, optimize).items, reasoningId, messageId)
  {
    if out != [] {
      var init := out[..|out| - 1];
      ItemsFit(init, reasoningId, messageId, optimize);
      TakeAdds(Read(init, optimize), out[|out| - 1].body, optimize);
    }
  }

  /** No event but a done one adds an item. */
  lemma TakeAdds(v: View, body: Body, optimize: Optimizer)
    ensures || Take(v, body, optimize).items == v.items
            || (body.ItemDone? && Take(v, body, optimize).items == v.items + [body.item])
  {
    if body.ItemDone? {
      DoneAdds(Check(v, body.index == |v.items|), body.item, optimize);
    } else {
      TakeStays(v, body, optimize);
    }
  }

  lemma DoneAdds(v: View, item: Item, optimize: Optimizer)
    ensures OnDone(v, item, optimize).items == v.items || OnDone(v, item, optimize).items == v.items + [item]
  {
  }

  // ---------------------------------------------------------------- what the items tell

  function ThoughtTexts(items: seq<Item>): seq<string> {
    if items == [] then []
    else
      var last := items[|items| - 1];
      ThoughtTexts(items[..|items| - 1]) + (if last.source.Reasoning? then [last.text] else [])
  }

  function AnswerTexts(items: seq<Item>): seq<string> {
    if items == [] then []
    else
      var last := items[|items| - 1];
      AnswerTexts(items[..|items| - 1]) + (if last.source.Message? then [last.text] else [])
  }

  /** A call is done with one item, whose arguments are the optimized form of what was sent
      before. */
  ghost predicate CallTells(v: View, optimize: Optimizer, n: int) {
    var t := ToolOf(v, n);
    t.finished.Some? ==>
      && t.finished.value in v.items && t.finished.value.source == Tool(n)
      && optimize(t.finished.value.name, t.sent) == Some(t.finished.value.text)
  }

  ghost predicate ItemTells(v: View, item: Item) {
    item.source.Tool? ==> ToolOf(v, item.source.n).finished == Some(item)
  }

  ghost predicate AllCallsTell(v: View, optimize: Optimizer) {
    forall n {:trigger CallTells(v, optimize, n)} :: CallTells(v, optimize, n)
  }

  ghost predicate AllItemsTell(v: View) {
    forall i {:trigger v.items[i]} :: 0 <= i < |v.items| ==> ItemTells(v, v.items[i])
  }

  predicate CallsOnce(items: seq<Item>) {
    forall i, j :: 0 <= i < j < |items| && items[i].source.Tool? ==> items[i].source != items[j].source
  }

  /** The finished items are the blocks of thoughts, the message and the calls that are done,
      each once. */
  ghost predicate ItemsTell(v: View, optimize: Optimizer) {
    && ThoughtTexts(v.items) == v.blocks
    && AnswerTexts(v.items) == (if v.messageDone.Some? then [v.messageDone.value] else [])
    && AllCallsTell(v, optimize) && AllItemsTell(v) && CallsOnce(v.items)
  }

  lemma OnceMore(items: seq<Item>, item: Item)
    requires CallsOnce(items) && forall i :: 0 <= i < |items| && item.source.Tool? ==> items[i].source != item.source
    ensures CallsOnce(items + [item])
  {
  }

  lemma TextsMore(items: seq<Item>, item: Item)
    ensures ThoughtTexts(items + [item]) == ThoughtTexts(items) + (if item.source.Reasoning? then [item.text] else [])
    ensures AnswerTexts(items + [item]) == AnswerTexts(items) + (if item.source.Message? then [item.text] else [])
  {
    assert (items + [item])[..|items|] == items;
  }

  /** What a client has of call `n` stays, once it is done. */
  ghost predicate FinishedStays(v: View, w: View, n: int) {
    && ToolOf(w, n).finished == ToolOf(v, n).finished
    && (ToolOf(v, n).finished.Some? ==> ToolOf(w, n).sent == ToolOf(v, n).sent)
  }

  ghost predicate AllStay(v: View, w: View) {
    forall n {:trigger FinishedStays(v, w, n)} :: FinishedStays(v, w, n)
  }

  /** An event that adds no item and changes no finished call. */
  lemma TakeQuiet(v: View, w: View, optimize: Optimizer)
    requires ItemsTell(v, optimize) && Quiet(v, w)
    ensures ItemsTell(w, optimize)
  {
    forall n ensures CallTells(w, optimize, n) {
      assert CallTells(v, optimize, n) && FinishedStays(v, w, n);
    }
    forall i | 0 <= i < |w.items| ensures ItemTells(w, w.items[i]) {
      assert ItemTells(v, v.items[i]);
      assert v.items[i].source.Tool? ==> FinishedStays(v, w, v.items[i].source.n);
    }
  }

  lemma OtherItemTells(v: View, w: View, item: Item, optimize: Optimizer, n: int)
    requires CallTells(v, optimize, n) && w.tools == v.tools && w.items == v.items + [item]
    ensures CallTells(w, optimize, n)
  {
  }

  /** A block of thoughts or the message is one more item. */
  lemma OtherItem(v: View, w: View, item: Item, optimize: Optimizer)
    requires ItemsTell(v, optimize) && !item.source.Tool? && w.tools == v.tools && w.items == v.items + [item]
    requires w.blocks == v.blocks + (if item.source.Reasoning? then [item.text] else [])
    requires if item.source.Message? then v.messageDone.None? && w.messageDone == Some(item.text)
             else w.messageDone == v.messageDone
    ensures ItemsTell(w, optimize)
  {
    TextsMore(v.items, item);
    OnceMore(v.items, item);
    OtherCalls(v, w, item, optimize);
    OtherItems(v, w, item);
  }

  lemma OtherCalls(v: View, w: View, item: Item, optimize: Optimizer)
    requires AllCallsTell(v, optimize) && w.tools == v.tools && w.items == v.items + [item]
    ensures AllCallsTell(w, optimize)
  {
    forall n ensures CallTells(w, optimize, n) {
      assert CallTells(v, optimize, n);
      OtherItemTells(v, w, item, optimize, n);
    }
  }

  lemma OtherItems(v: View, w: View, item: Item)
    requires AllItemsTell(v) && !item.source.Tool? && w.tools == v.tools && w.items == v.items + [item]
    ensures AllItemsTell(w)
  {
    forall i | 0 <= i < |w.items| ensures ItemTells(w, w.items[i]) {
      assert i < |v.items| ==> ItemTells(v, v.items[i]);
    }
  }

  lemma CallItemTells(v: View, w: View, item: Item, n: int, optimize: Optimizer, m: int)
    requires CallTells(v, optimize, m) && item.source == Tool(n) && w.items == v.items + [item]
    requires optimize(item.name, ToolOf(v, n).sent) == Some(item.text)
    requires w.tools == v.tools[n := Finished(ToolOf(v, n), item)]
    ensures CallTells(w, optimize, m)
  {
    assert w.items[|v.items|] == item;
  }

  /** The item of a call that was not done is one more, and the first of its call. */
  lemma CallItem(v: View, w: View, item: Item, n: int, optimize: Optimizer)
    requires ItemsTell(v, optimize) && item.source == Tool(n) && ToolOf(v, n).finished.None?
    requires optimize(item.name, ToolOf(v, n).sent) == Some(item.text)
    requires w.items == v.items + [item] && w.blocks == v.blocks && w.messageDone == v.messageDone
    requires w.tools == v.tools[n := Finished(ToolOf(v, n), item)]
    ensures ItemsTell(w, optimize)
  {
    TextsMore(v.items, item);
    OneCalls(v, w, item, n, optimize);
    NotThere(v, item, n);
    OnceMore(v.items, item);
    OneItems(v, w, item, n);
  }

  lemma NotThere(v: View, item: Item, n: int)
    requires AllItemsTell(v) && item.source == Tool(n) && ToolOf(v, n).finished.None?
    ensures forall i :: 0 <= i < |v.items| ==> v.items[i].source != item.source
  {
    forall i | 0 <= i < |v.items| ensures v.items[i].source != item.source {
      assert ItemTells(v, v.items[i]);
    }
  }

  lemma OneCalls(v: View, w: View, item: Item, n: int, optimize: Optimizer)
    requires AllCallsTell(v, optimize) && item.source == Tool(n) && w.items == v.items + [item]
    requires optimize(item.name, ToolOf(v, n).sent) == Some(item.text)
    requires w.tools == v.tools[n := Finished(ToolOf(v, n), item)]
    ensures AllCallsTell(w, optimize)
  {
    forall m ensures CallTells(w, optimize, m) {
      assert CallTells(v, optimize, m);
      CallItemTells(v, w, item, n, optimize, m);
    }
  }

  lemma OneItems(v: View, w: View, item: Item, n: int)
    requires AllItemsTell(v) && item.source == Tool(n) && ToolOf(v, n).finished.None?
    requires w.items == v.items + [item] && w.tools == v.tools[n := Finished(ToolOf(v, n), item)]
    ensures AllItemsTell(w)
  {
    forall i | 0 <= i < |w.items| ensures ItemTells(w, w.items[i]) {
      assert i < |v.items| ==> ItemTells(v, v.items[i]);
    }
  }

  lemma TakeItem(v: View, item: Item, optimize: Optimizer)
    requires ItemsTell(v, optimize) && v.ok && OnDone(v, item, optimize).ok
    ensures ItemsTell(OnDone(v, item, optimize), optimize)
  {
    if item.source.Tool? {
      CallItem(v, OnDone(v, item, optimize), item, item.source.n, optimize);
    } else {
      OtherItem(v, OnDone(v, item, optimize), item, optimize);
    }
  }

  /** Nothing is finished by it. */
  ghost predicate Quiet(v: View, w: View) {
    w.items == v.items && w.blocks == v.blocks && w.messageDone == v.messageDone && AllStay(v, w)
  }

  lemma AddedQuiet(v: View, good: bool, source: Source, id: string, name: string)
    ensures Quiet(v, OnAdded(Check(v, good), source, id, name))
  {
  }

  lemma DeltaQuiet(v: View, good: bool, source: Source, id: string, text: string, contentIndex: int)
    ensures Quiet(v, OnDelta(Check(v, good), source, id, text, contentIndex))
  {
  }

  lemma ToldQuiet(v: View, good: bool, n: int, item: Item, optimize: Optimizer)
    ensures Quiet(v, OnTold(Check(v, good), n, item, optimize))
  {
  }

  lemma CheckQuiet(v: View, good: bool)
    ensures Quiet(v, Check(v, good))
  {
  }

  lemma AdvanceQuiet(v: View, good: bool, now: Stage, text: string, next: Stage)
    ensures Quiet(v, Advance(Check(v, good), now, text, next))
  {
  }

  lemma TakeStays(v: View, body: Body, optimize: Optimizer)
    requires !body.ItemDone?
    ensures Quiet(v, Take(v, body, optimize))
  {
    match body
    case ItemAdded(source, id, name, index) => AddedQuiet(v, index == |v.items|, source, id, name);
    case Delta(source, id, index, text, contentIndex) =>
      DeltaQuiet(v, index == |v.items|, source, id, text, contentIndex);
    case ArgumentsDone(source, id, name, index, arguments) =>
      if source.Tool? {
        ToldQuiet(v, index == |v.items|, source.n, Item(source, id, name, arguments), optimize);
      } else {
        CheckQuiet(v, false);
      }
    case SummaryPartAdded(_, index) => AdvanceQuiet(v, index == |v.items|, Added, "", Opened);
    case SummaryTextDone(_, index, text) => AdvanceQuiet(v, index == |v.items|, Opened, text, TextDone);
    case SummaryPartDone(_, index, text) => AdvanceQuiet(v, index == |v.items|, TextDone, text, PartDone);
    case Completed(output) => CheckQuiet(v, output == v.items && v.open.None?);
    case _ => CheckQuiet(v, true);
  }

  lemma TakeTells(v: View, body: Body, optimize: Optimizer)
    requires ItemsTell(v, optimize) && v.ok && Take(v, body, optimize).ok
    ensures ItemsTell(Take(v, body, optimize), optimize)
  {
    var w := Take(v, body, optimize);
    if body.ItemDone? {
      IndexGood(v, body, optimize);
      TakeItem(v, body.item, optimize);
    } else {
      TakeStays(v, body, optimize);
      TakeQuiet(v, w, optimize);
    }
  }

  lemma IndexGood(v: View, body: Body, optimize: Optimizer)
    requires body.ItemDone? && v.ok && Take(v, body, optimize).ok
    ensures Take(v, body, optimize) == OnDone(v, body.item, optimize)
  {
  }

  /** Whoever reads events without an objection can rely on the items. */
  lemma {:induction false} ReadTells(out: seq<Event>, optimize: Optimizer)
    requires Read(out, optimize).ok
    ensures ItemsTell(Read(out, optimize), optimize)
  {
    if out != [] {
      var init := out[..|out| - 1];
      if Read(init, optimize).ok {
        ReadTells(init, optimize);
        TakeTells(Read(init, optimize), out[|out| - 1].body, optimize);
      } else {
        NeverOkAgain(Read(init, optimize), out[|out| - 1].body, optimize);
      }
    }
  }

  lemma NeverOkAgain(v: View, body: Body, optimize: Optimizer)
    requires !v.ok
    ensures !Take(v, body, optimize).ok
  {
  }
}
