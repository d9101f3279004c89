/** Translates a llama-server chat stream into the events of one response. */
module StreamAdapter {
  import opened Prelude
  import opened ResponseEvents
  import opened StreamPieces
  import opened Text

  datatype Entry = Entry(id: string, name: string, args: string, contentIndex: int, added: bool, finalized: bool)

  const NEW_ENTRY := Entry("", "", "", 0, false, false)

  /** How a run ends: completed, with `response.failed`, or with an exception of its own. */
  datatype End = Whole | Failure | Raised

  // ---------------------------------------------------------------- what can go wrong

  /** Making the final arguments of some call raises. */
  ghost predicate CanRaise(optimize: Optimizer) {
    exists name, args :: optimize(name, args).None?
  }

  /** Nothing upstream or in the arguments raises. */
  ghost predicate Tame(arrivals: seq<Arrival>, optimize: Optimizer) {
    (forall i :: 0 <= i < |arrivals| ==> Readable(arrivals[i])) && !CanRaise(optimize)
  }

  // ---------------------------------------------------------------- one call, three ways

  /** Entry and client know the same of an announced call. */
  predicate Matches(e: Entry, t: ToolView) {
    && e.added && e.name != "" && t.added == 1 && e.contentIndex == t.deltas + 1
    && (t.finished.Some? <==> e.finalized)
    && (if e.finalized then t.sent + t.late == e.args else t.sent == e.args && t.late == "")
    && t.told == t.finished
  }

  /** Entry and client agree about call `n`. */
  ghost predicate Agree(tools: map<int, Entry>, seen: map<int, ToolView>, n: int) {
    var t := Lookup(seen, n);
    if n in tools && tools[n].added then Matches(tools[n], t)
    else t == NO_TOOL && (n in tools ==> !tools[n].finalized)
  }

  ghost predicate AllAgree(tools: map<int, Entry>, seen: map<int, ToolView>) {
    forall n {:trigger Agree(tools, seen, n)} :: Agree(tools, seen, n)
  }

  lemma AgreeAfter(tools: map<int, Entry>, seen: map<int, ToolView>, n: int, e: Entry, t: ToolView)
    requires AllAgree(tools, seen) && Matches(e, t)
    ensures AllAgree(tools[n := e], seen[n := t])
  {
    var after, later := tools[n := e], seen[n := t];
    forall m ensures Agree(after, later, m) {
      assert Agree(tools, seen, m);
    }
  }

  lemma AgreeSilent(tools: map<int, Entry>, seen: map<int, ToolView>, n: int, e: Entry)
    requires AllAgree(tools, seen) && (n in tools ==> !tools[n].added) && !e.added && !e.finalized
    ensures AllAgree(tools[n := e], seen)
  {
    var after := tools[n := e];
    forall m ensures Agree(after, seen, m) {
      assert Agree(tools, seen, m);
    }
  }

  lemma AgreeOn(tools: map<int, Entry>, seen: map<int, ToolView>, n: int)
    requires AllAgree(tools, seen)
    ensures Agree(tools, seen, n)
  {
  }

  /** A call goes by the id it was given last, or by a made up one once it is announced. */
  predicate IdsTied(own: string, e: Entry, t: ToolView, pieces: seq<Piece>, n: int) {
    && (if e.added then e.id == Own(IdIn(pieces, n), own) && t.id == Own(AnnouncedIdIn(pieces, n), own)
        else e.id == IdIn(pieces, n) && IdKept(pieces, n, own))
    && (e.finalized ==>
          && t.finished.Some? && t.finished.value.id == Own(ClosedIdIn(pieces, n), own)
          && (IdKept(pieces, n, own) ==> t.finished.value.id == t.id))
    && (e.added && IdKept(pieces, n, own) ==> e.id == t.id && t.steady)
  }

  /** What is known of call `n` is what the pieces said about it: it was announced exactly
      when it has a name, under its first one, and done with what it had when it was closed. */
  ghost predicate ToolTied(mint: Mint, tools: map<int, Entry>, seen: map<int, ToolView>, pieces: seq<Piece>, n: int) {
    var e, t := EntryOf(tools, n), Lookup(seen, n);
    && e.args == ArgsIn(pieces, n) && e.name == NameIn(pieces, n) && (e.added <==> e.name != "")
    && (e.added && !e.finalized <==> OpenIn(pieces, n)) && (e.finalized ==> e.added)
    && (if e.added then t.announced == FirstNameIn(pieces, n) else FirstNameIn(pieces, n) == "")
    && (if e.finalized then t.finished.Some? && ClosedIn(pieces, n) == Some((t.finished.value.name, t.sent))
        else ClosedIn(pieces, n) == None)
    && IdsTied(mint(n), e, t, pieces, n)
  }

  ghost predicate AllTied(mint: Mint, tools: map<int, Entry>, seen: map<int, ToolView>, pieces: seq<Piece>) {
    forall n {:trigger ToolTied(mint, tools, seen, pieces, n)} :: ToolTied(mint, tools, seen, pieces, n)
  }

  /** What the translator has put together is what the pieces say. */
  ghost predicate TiedTo(mint: Mint, pieces: seq<Piece>, tools: map<int, Entry>, seen: map<int, ToolView>,
                         answer: string, blocks: seq<string>, open: Option<string>)
  {
    && AllTied(mint, tools, seen, pieces)
    && answer == AnswerIn(pieces)
    && ThoughtsIn(pieces) == (blocks, open)
  }

  lemma ThoughtKeeps(mint: Mint, pieces: seq<Piece>, tools: map<int, Entry>, seen: map<int, ToolView>, text: string)
    requires AllTied(mint, tools, seen, pieces)
    ensures AllTied(mint, tools, seen, pieces + [Thought(text)])
  {
    forall n ensures ToolTied(mint, tools, seen, pieces + [Thought(text)], n) {
      assert ToolTied(mint, tools, seen, pieces, n);
      OneMorePieceFor(pieces, Thought(text), n);
    }
  }

  lemma ThoughtTied(mint: Mint, pieces: seq<Piece>, tools: map<int, Entry>, seen: map<int, ToolView>, answer: string,
                    blocks: seq<string>, open: Option<string>, text: string)
    requires TiedTo(mint, pieces, tools, seen, answer, blocks, open)
    ensures TiedTo(mint, pieces + [Thought(text)], tools, seen, answer, blocks, Some(Grown(open, text)))
  {
    ThoughtKeeps(mint, pieces, tools, seen, text);
    OneMorePiece(pieces, Thought(text));
    assert AnswerIn(pieces) + "" == AnswerIn(pieces);
  }

  /** A named call finished, with the name and the arguments it had, or before. */
  predicate FinishedNow(own: string, e: Entry, t: ToolView, after: Entry, later: ToolView) {
    && after.name == e.name && after.args == e.args && after.added && after.finalized
    && after.id == (if e.added then e.id else Own(e.id, own))
    && if e.finalized then later == t
       else
         && later.finished.Some? && later.finished.value.name == e.name && later.sent == e.args
         && later.finished.value.id == after.id
         && later.announced == (if e.added then t.announced else e.name)
         && later.id == (if e.added then t.id else after.id)
         && later.steady == (!e.added || (t.steady && e.id == t.id))
  }

  ghost predicate FinishedAt(mint: Mint, before: map<int, Entry>, seen: map<int, ToolView>,
                             after: map<int, Entry>, later: map<int, ToolView>, which: set<int>, n: int)
  {
    if n in before && n in which && before[n].name != "" then
      n in after && FinishedNow(mint(n), before[n], Lookup(seen, n), after[n], Lookup(later, n))
    else EntryOf(after, n) == EntryOf(before, n) && (n in after <==> n in before) && Lookup(later, n) == Lookup(seen, n)
  }

  /** `after` is `before` with every named call of `which` finished, and the client knows. */
  ghost predicate FinishedFrom(mint: Mint, before: map<int, Entry>, seen: map<int, ToolView>,
                               after: map<int, Entry>, later: map<int, ToolView>, which: set<int>)
  {
    && after.Keys == before.Keys
    && forall n {:trigger FinishedAt(mint, before, seen, after, later, which, n)} ::
         FinishedAt(mint, before, seen, after, later, which, n)
  }

  function FirstOnes(order: seq<int>, i: nat): set<int>
    requires i <= |order|
  {
    set k | 0 <= k < i :: order[k]
  }

  lemma FirstOnesMore(order: seq<int>, i: nat)
    requires i < |order|
    ensures FirstOnes(order, i + 1) == FirstOnes(order, i) + {order[i]}
  {
  }

  lemma AllFirst(order: seq<int>)
    ensures FirstOnes(order, |order|) == set n | n in order
  {
  }

  /** `after` is `first` with the named calls among the first `i` of `order` finished. */
  ghost predicate FinishedUpTo(mint: Mint, first: map<int, Entry>, seen: map<int, ToolView>,
                               after: map<int, Entry>, later: map<int, ToolView>, order: seq<int>, i: nat)
    requires i <= |order|
  {
    FinishedFrom(mint, first, seen, after, later, FirstOnes(order, i))
  }

  lemma NothingFinished(mint: Mint, tools: map<int, Entry>, seen: map<int, ToolView>, order: seq<int>)
    ensures FinishedUpTo(mint, tools, seen, tools, seen, order, 0)
  {
    forall n ensures FinishedAt(mint, tools, seen, tools, seen, FirstOnes(order, 0), n) {
    }
  }

  lemma FinishedMoreAt(mint: Mint, first: map<int, Entry>, firstSeen: map<int, ToolView>, before: map<int, Entry>,
                       seen: map<int, ToolView>, after: map<int, Entry>, later: map<int, ToolView>,
                       which: set<int>, m: int, n: int)
    requires FinishedAt(mint, first, firstSeen, before, seen, which, n) && m in before
    requires if before[m].finalized then after == before && later == seen && before[m].added
             else FinishedAt(mint, before, seen, after, later, {m}, n)
    requires n in before && before[n].finalized ==> before[n].added && before[n].name != ""
    ensures FinishedAt(mint, first, firstSeen, after, later, which + {m}, n)
  {
  }

  lemma FinishedMore(mint: Mint, first: map<int, Entry>, firstSeen: map<int, ToolView>, before: map<int, Entry>,
                      seen: map<int, ToolView>, after: map<int, Entry>, later: map<int, ToolView>,
                      order: seq<int>, i: nat)
    requires i < |order| && FinishedUpTo(mint, first, firstSeen, before, seen, order, i) && order[i] in before
    requires if before[order[i]].finalized then after == before && later == seen
             else FinishedFrom(mint, before, seen, after, later, {order[i]})
    requires AllAgree(before, seen)
    ensures FinishedUpTo(mint, first, firstSeen, after, later, order, i + 1)
  {
    FirstOnesMore(order, i);
    AgreeOn(before, seen, order[i]);
    var done, more := FirstOnes(order, i), FirstOnes(order, i + 1);
    forall n ensures FinishedAt(mint, first, firstSeen, after, later, more, n) {
      assert FinishedAt(mint, first, firstSeen, before, seen, done, n);
      assert !before[order[i]].finalized ==> FinishedAt(mint, before, seen, after, later, {order[i]}, n);
      AgreeOn(before, seen, n);
      FinishedMoreAt(mint, first, firstSeen, before, seen, after, later, done, order[i], n);
    }
  }

  lemma CallFinished(mint: Mint, pieces: seq<Piece>, before: map<int, Entry>, seen: map<int, ToolView>,
                     after: map<int, Entry>, later: map<int, ToolView>, p: Piece, n: int)
    requires ToolTied(mint, before, seen, pieces, n) && Closes(p)
    requires FinishedAt(mint, before, seen, after, later, before.Keys, n)
    ensures ToolTied(mint, after, later, pieces + [p], n)
  {
    OneMorePieceFor(pieces, p, n);
  }

  lemma CallsFinished(mint: Mint, pieces: seq<Piece>, before: map<int, Entry>, seen: map<int, ToolView>,
                      after: map<int, Entry>, later: map<int, ToolView>, p: Piece)
    requires AllTied(mint, before, seen, pieces) && Closes(p)
    requires FinishedFrom(mint, before, seen, after, later, before.Keys)
    ensures AllTied(mint, after, later, pieces + [p])
  {
    forall n ensures ToolTied(mint, after, later, pieces + [p], n) {
      assert ToolTied(mint, before, seen, pieces, n);
      assert FinishedAt(mint, before, seen, after, later, before.Keys, n);
      CallFinished(mint, pieces, before, seen, after, later, p, n);
    }
  }

  /** The calls finished last, in index order. */
  predicate CallsInOrder(was: seq<Item>, now: seq<Item>) {
    && was <= now
    && (forall i :: |was| <= i < |now| ==> now[i].source.Tool?)
    && (forall i, j :: |was| <= i < j < |now| ==> now[i].source.n < now[j].source.n)
  }

  predicate CallsBelow(was: seq<Item>, now: seq<Item>, bound: int) {
    CallsInOrder(was, now) && forall i :: |was| <= i < |now| ==> now[i].source.n < bound
  }

  predicate IsPending(e: Entry) {
    !e.finalized && e.name != ""
  }

  /** The pending calls among the first `i` of all. */
  ghost predicate PendingOf(tools: map<int, Entry>, all: seq<int>, i: nat, order: seq<int>)
    requires i <= |all|
  {
    && Increasing(order)
    && (forall k :: 0 <= k < |order| ==> i < |all| ==> order[k] < all[i])
    && (forall n :: n in order <==> n in FirstOnes(all, i) && n in tools && IsPending(tools[n]))
  }

  lemma PendingMore(tools: map<int, Entry>, all: seq<int>, i: nat, order: seq<int>)
    requires i < |all| && Increasing(all) && all[i] in tools && PendingOf(tools, all, i, order)
    ensures PendingOf(tools, all, i + 1, if IsPending(tools[all[i]]) then order + [all[i]] else order)
  {
    FirstOnesMore(all, i);
    var next := if IsPending(tools[all[i]]) then order + [all[i]] else order;
    assert i + 1 < |all| ==> all[i] < all[i + 1];
    assert forall n :: n in next <==> n in order || (IsPending(tools[all[i]]) && n == all[i]);
  }

  /** Nothing new, or call `n`. */
  predicate AddsOne(was: seq<Item>, now: seq<Item>, n: int) {
    now == was || (|now| == |was| + 1 && was <= now && now[|was|].source == Tool(n))
  }

  lemma BelowMore(was: seq<Item>, before: seq<Item>, now: seq<Item>, n: int, bound: int)
    requires CallsBelow(was, before, n) && AddsOne(before, now, n) && n < bound
    ensures CallsBelow(was, now, bound)
  {
  }

  /** The next index to be finished, or one above the last. */
  function NextBound(order: seq<int>, i: nat): int
    requires i <= |order|
  {
    if i < |order| then order[i] else if i > 0 then order[i - 1] + 1 else 0
  }

  lemma NextBoundHigher(order: seq<int>, i: nat)
    requires i < |order| && Increasing(order)
    ensures NextBound(order, i) < NextBound(order, i + 1)
  {
  }

  function EntryOf(tools: map<int, Entry>, n: int): Entry {
    if n in tools then tools[n] else NEW_ENTRY
  }

  /** One more part of a call read into its entry. */
  predicate ReadNow(own: string, e: Entry, t: ToolView, after: Entry, later: ToolView, td: ToolDelta) {
    && after.args == e.args + td.args
    && after.name == LastName(e, td)
    && after.added == (e.added || after.name != "")
    && after.finalized == e.finalized
    && later.finished == t.finished && (e.finalized ==> later.sent == t.sent)
    && (after.added ==> later.announced == (if e.added then t.announced else after.name))
    && IdsReadNow(own, e, t, after, later, td)
  }

  function LastId(e: Entry, td: ToolDelta): string {
    if td.id != "" then td.id else e.id
  }

  function LastName(e: Entry, td: ToolDelta): string {
    if td.name != "" then td.name else e.name
  }

  predicate IdsReadNow(own: string, e: Entry, t: ToolView, after: Entry, later: ToolView, td: ToolDelta) {
    && after.id == (if after.added && !e.added then Own(LastId(e, td), own) else LastId(e, td))
    && (after.added ==>
          && later.id == (if e.added then t.id else after.id)
          && later.steady == (!e.added || (t.steady && (td.args == "" || after.id == t.id))))
  }

  /** `after` is `before` with one more part of a call, and the client knows. */
  ghost predicate ReadInto(mint: Mint, before: map<int, Entry>, seen: map<int, ToolView>,
                           after: map<int, Entry>, later: map<int, ToolView>, td: ToolDelta)
  {
    && td.index.Some?
    && var n := td.index.value;
    && n in after && after == before[n := after[n]]
    && (forall m {:trigger Lookup(later, m)} :: m != n ==> Lookup(later, m) == Lookup(seen, m))
    && ReadNow(mint(n), EntryOf(before, n), Lookup(seen, n), after[n], Lookup(later, n), td)
  }

  /** A part without arguments of an announced call, or any part of one without a name,
      changes nothing the client would have to know. */
  lemma ReadKeeps(tools: map<int, Entry>, seen: map<int, ToolView>, n: int, td: ToolDelta, e: Entry)
    requires AllAgree(tools, seen)
    requires var old_ := EntryOf(tools, n);
             e == old_.(id := e.id, name := e.name, args := old_.args + td.args)
             && e.name == if td.name != "" then td.name else old_.name
    ensures n !in tools || !tools[n].added ==> !e.added && !e.finalized && Lookup(seen, n) == NO_TOOL
    ensures e.added ==> n in tools && tools[n].added && e.name != ""
    ensures e.finalized <==> Lookup(seen, n).finished.Some?
    ensures (if e.added then td.args == "" else e.name == "") ==> AllAgree(tools[n := e], seen)
  {
    AgreeOn(tools, seen, n);
    if e.added && td.args == "" {
      assert e.args == EntryOf(tools, n).args;
      AgreeAfter(tools, seen, n, e, Lookup(seen, n));
      assert seen[n := Lookup(seen, n)] == seen;
    } else if !e.added {
      AgreeSilent(tools, seen, n, e);
    }
  }

  lemma ReadIs(mint: Mint, before: map<int, Entry>, seen: map<int, ToolView>,
               after: map<int, Entry>, later: map<int, ToolView>, td: ToolDelta, n: int)
    requires td.index == Some(n) && n in after && after == before[n := after[n]]
    requires later == seen || (n in later && later == seen[n := later[n]])
    requires ReadNow(mint(n), EntryOf(before, n), Lookup(seen, n), after[n], Lookup(later, n), td)
    ensures ReadInto(mint, before, seen, after, later, td)
  {
  }

  /** What a part of a call changes for that call. */
  lemma CallReadHere(mint: Mint, pieces: seq<Piece>, before: map<int, Entry>, seen: map<int, ToolView>,
                     after: map<int, Entry>, later: map<int, ToolView>, td: ToolDelta, n: int)
    requires ToolTied(mint, before, seen, pieces, n) && td.index == Some(n) && n in after
    requires ReadNow(mint(n), EntryOf(before, n), Lookup(seen, n), after[n], Lookup(later, n), td)
    ensures ToolTied(mint, after, later, pieces + [Call(td)], n)
  {
    OneMorePieceFor(pieces, Call(td), n);
    NamedMeaning(pieces, n);
  }

  /** And that it changes nothing for the others. */
  lemma CallReadElsewhere(mint: Mint, pieces: seq<Piece>, before: map<int, Entry>, seen: map<int, ToolView>,
                          after: map<int, Entry>, later: map<int, ToolView>, td: ToolDelta, n: int)
    requires ToolTied(mint, before, seen, pieces, n) && td.index != Some(n)
    requires EntryOf(after, n) == EntryOf(before, n) && Lookup(later, n) == Lookup(seen, n)
    ensures ToolTied(mint, after, later, pieces + [Call(td)], n)
  {
    OneMorePieceFor(pieces, Call(td), n);
    assert ArgsIn(pieces, n) + "" == ArgsIn(pieces, n);
  }

  lemma CallRead(mint: Mint, pieces: seq<Piece>, before: map<int, Entry>, seen: map<int, ToolView>,
                 after: map<int, Entry>, later: map<int, ToolView>, td: ToolDelta)
    requires AllTied(mint, before, seen, pieces) && ReadInto(mint, before, seen, after, later, td)
    ensures AllTied(mint, after, later, pieces + [Call(td)])
  {
    forall n ensures ToolTied(mint, after, later, pieces + [Call(td)], n) {
      assert ToolTied(mint, before, seen, pieces, n);
      if td.index == Some(n) {
        CallReadHere(mint, pieces, before, seen, after, later, td, n);
      } else {
        CallReadElsewhere(mint, pieces, before, seen, after, later, td, n);
      }
    }
  }

  /** The same, once the thoughts before a call have been closed. */
  ghost predicate ClosedTo(mint: Mint, pieces: seq<Piece>, tools: map<int, Entry>, seen: map<int, ToolView>,
                           answer: string, blocks: seq<string>)
  {
    AllTied(mint, tools, seen, pieces) && answer == AnswerIn(pieces) && Closed(ThoughtsIn(pieces)) == blocks
  }

  lemma CloseTied(mint: Mint, pieces: seq<Piece>, tools: map<int, Entry>, seen: map<int, ToolView>, answer: string,
                  blocks: seq<string>, open: Option<string>)
    requires TiedTo(mint, pieces, tools, seen, answer, blocks, open)
    ensures ClosedTo(mint, pieces, tools, seen, answer, Closed((blocks, open)))
  {
  }

  lemma CallTied(mint: Mint, pieces: seq<Piece>, before: map<int, Entry>, seen: map<int, ToolView>,
                 after: map<int, Entry>, later: map<int, ToolView>, answer: string, blocks: seq<string>,
                 td: ToolDelta)
    requires ClosedTo(mint, pieces, before, seen, answer, blocks) && ReadInto(mint, before, seen, after, later, td)
    ensures TiedTo(mint, pieces + [Call(td)], after, later, answer, blocks, None)
    ensures ClosedTo(mint, pieces + [Call(td)], after, later, answer, blocks)
  {
    CallRead(mint, pieces, before, seen, after, later, td);
    OneMorePiece(pieces, Call(td));
    assert AnswerIn(pieces) + "" == AnswerIn(pieces);
  }

  lemma AnswerTied(mint: Mint, pieces: seq<Piece>, before: map<int, Entry>, seen: map<int, ToolView>,
                   after: map<int, Entry>, later: map<int, ToolView>, answer: string, blocks: seq<string>,
                   text: string)
    requires ClosedTo(mint, pieces, before, seen, answer, blocks)
    requires FinishedFrom(mint, before, seen, after, later, before.Keys)
    ensures TiedTo(mint, pieces + [Answer(text)], after, later, answer + text, blocks, None)
  {
    CallsFinished(mint, pieces, before, seen, after, later, Answer(text));
    OneMorePiece(pieces, Answer(text));
  }

  lemma FinishTied(mint: Mint, pieces: seq<Piece>, before: map<int, Entry>, seen: map<int, ToolView>,
                   after: map<int, Entry>, later: map<int, ToolView>, answer: string, blocks: seq<string>,
                   open: Option<string>)
    requires TiedTo(mint, pieces, before, seen, answer, blocks, open)
    requires FinishedFrom(mint, before, seen, after, later, before.Keys)
    ensures TiedTo(mint, pieces + [Finish], after, later, answer, blocks, open)
  {
    CallsFinished(mint, pieces, before, seen, after, later, Finish);
    OneMorePiece(pieces, Finish);
    assert AnswerIn(pieces) + "" == AnswerIn(pieces);
  }

  function DoneWith(seen: map<int, ToolView>, n: int, item: Item): ToolView {
    Finished(Lookup(seen, n), item)
  }

  lemma AgreeDone(tools: map<int, Entry>, seen: map<int, ToolView>, n: int, e: Entry, item: Item)
    requires AllAgree(tools, seen) && n in tools && tools[n] == e && e.added && !e.finalized
    ensures AllAgree(tools[n := e.(finalized := true)], seen[n := DoneWith(seen, n, item)])
    ensures Lookup(seen, n).sent == e.args && Lookup(seen, n).added == 1
    ensures Lookup(seen, n).finished.None? && Lookup(seen, n).told.None?
  {
    AgreeOn(tools, seen, n);
    var t := Lookup(seen, n);
    assert t.sent + "" == t.sent;
    AgreeAfter(tools, seen, n, e.(finalized := true), DoneWith(seen, n, item));
  }

  /** A call announced if need be and then done. */
  lemma OneFinished(mint: Mint, before: map<int, Entry>, seen: map<int, ToolView>, n: int, e: Entry, t: ToolView,
                    item: Item)
    requires AllAgree(before, seen) && n in before && !before[n].finalized && before[n].name != ""
    requires e.name == before[n].name && e.args == before[n].args && e.added && item.name == e.name && item.id == e.id
    requires if before[n].added then e == before[n] && t == Lookup(seen, n)
             else e.id == Own(before[n].id, mint(n)) && t == NewTool(e.id, e.name, e.args)
    ensures FinishedFrom(mint, before, seen, before[n := e.(finalized := true)], seen[n := Finished(t, item)], {n})
  {
    AgreeOn(before, seen, n);
    var after, later := before[n := e.(finalized := true)], seen[n := Finished(t, item)];
    forall m ensures FinishedAt(mint, before, seen, after, later, {n}, m) {
    }
  }

  lemma OneUnnamed(mint: Mint, tools: map<int, Entry>, seen: map<int, ToolView>, n: int)
    requires n in tools && tools[n].name == ""
    ensures FinishedFrom(mint, tools, seen, tools, seen, {n})
  {
    forall m ensures FinishedAt(mint, tools, seen, tools, seen, {n}, m) {
    }
  }

  // ---------------------------------------------------------------- the translator

  class Translator {
    const messageId: string
    const reasoningId: string
    const optimize: Optimizer
    const mint: Mint

    var number: int
    var index: int
    var items: seq<Item>
    var answer: string
    var contentIndex: int
    var inMessage: bool
    var tools: map<int, Entry>
    var inReasoning: bool
    var thought: string
    var thoughtIndex: int
    var out: seq<Event>

    ghost var view: View
    ghost var pieces: seq<Piece>

    /** The events sent so far are numbered, and a client accepts them. */
    ghost predicate Sent()
      reads this`number, this`out, this`view
    {
      && number == |out| && Numbered(out) && |out| > 0 && out[0].body == Created
      && view == Read(out, optimize) && view.ok && EventsFit(out, reasoningId, messageId)
    }

    /** And the client has what the translator thinks it has. */
    ghost predicate Sound()
      reads this`number, this`out, this`view, this`items, this`index, this`inReasoning, this`thought, this`thoughtIndex
      reads this`inMessage, this`answer, this`contentIndex, this`tools
    {
      && Sent()
      && view.items == items && index == |items|
      && view.open == (if inReasoning then Some(Thinking(thought, thoughtIndex, Opened)) else None)
      && (!inReasoning ==> thought == "") && thoughtIndex >= 0
      && view.messages == (if inMessage then 1 else 0)
      && view.messageDone.None?
      && view.message.text == answer
      && (inMessage ==> view.message.deltas == contentIndex && answer != "")
      && (!inMessage ==> view.message == Block("", 0))
      && AllAgree(tools, view.tools)
    }

    ghost function Open(): Option<string>
      reads this`inReasoning, this`thought
    {
      if inReasoning then Some(thought) else None
    }

    ghost predicate Tied()
      reads this`pieces, this`tools, this`view, this`answer, this`inReasoning, this`thought
    {
      TiedTo(mint, pieces, tools, view.tools, answer, view.blocks, Open())
    }

    constructor (messageId: string, reasoningId: string, optimize: Optimizer, mint: Mint)
      ensures Sound() && Tied()
      ensures out == [Event(1, Created)] && pieces == [] && items == []
      ensures this.optimize == optimize && this.mint == mint
      ensures this.messageId == messageId && this.reasoningId == reasoningId
    {
      this.messageId, this.reasoningId, this.optimize, this.mint := messageId, reasoningId, optimize, mint;
      number, index, items := 1, 0, [];
      answer, contentIndex, inMessage := "", 0, false;
      tools := map[];
      inReasoning, thought, thoughtIndex := false, "", 0;
      out := [Event(1, Created)];
      view, pieces := NOTHING, [];
      new;
      assert ThoughtsIn([]) == ([], None);
      SendMore([], [Created], optimize);
      TakeOne(NOTHING, Created, optimize);
      assert [] + NumberEach([Created], 0) == out;
    }

    /** The one place events are numbered and sent. */
    method Emit(bodies: seq<Body>)
      requires Sent() && TakeAll(view, bodies, optimize).ok && BodiesFit(bodies, reasoningId, messageId)
      modifies this`number, this`out, this`view
      ensures Sent() && view == TakeAll(old(view), bodies, optimize)
      ensures out == old(out) + NumberEach(bodies, |old(out)|)
    {
      SendMore(out, bodies, optimize);
      FitMore(out, bodies, reasoningId, messageId);
      out := out + NumberEach(bodies, number);
      number := number + |bodies|;
      view := TakeAll(view, bodies, optimize);
    }

    method EmitThoughtDone(text: string)
      requires Sent() && index == |view.items| && view.open.Some? && view.open.value.text == text
      requires view.open.value.stage.Opened?
      modifies this`number, this`out, this`view
      ensures Sent()
      ensures view == old(view).(open := None, blocks := old(view).blocks + [text],
                                 items := old(view).items + [Item(Reasoning, reasoningId, "", text)])
    {
      TakeThoughtDone(view, reasoningId, text, optimize);
      Emit(ThoughtDone(reasoningId, index, text));
    }

    method EmitThoughtOpened()
      requires Sent() && index == |view.items| && view.open.None?
      modifies this`number, this`out, this`view
      ensures Sent() && view == old(view).(open := Some(Thinking("", 0, Opened)))
    {
      TakeThoughtOpened(view, reasoningId, optimize);
      Emit(ThoughtOpened(reasoningId, index));
    }

    method EmitThought(text: string)
      requires Sent() && index == |view.items| && view.open.Some? && view.open.value.deltas == thoughtIndex
      requires view.open.value.stage.Opened?
      modifies this`number, this`out, this`view
      ensures Sent()
      ensures view == old(view).(open := Some(Thinking(old(view).open.value.text + text, thoughtIndex + 1, Opened)))
    {
      var delta := Delta(Reasoning, reasoningId, index, text, thoughtIndex);
      TakeOne(view, delta, optimize);
      Emit([delta]);
    }

    method EmitCallAdded(n: int, id: string, name: string, args: string)
      requires Sent() && index == |view.items| && ToolOf(view, n) == NO_TOOL && name != ""
      modifies this`number, this`out, this`view
      ensures Sent()
      ensures view == SetTool(old(view), n, NewTool(id, name, args))
    {
      TakeCallAdded(view, n, id, name, args, optimize);
      Emit(CallAdded(n, id, name, index, args));
    }

    method EmitArgs(n: int, id: string, text: string, contentIndex: int)
      requires Sent() && index == |view.items|
      requires ToolOf(view, n).added == 1 && contentIndex == ToolOf(view, n).deltas + 1
      modifies this`number, this`out, this`view
      ensures Sent() && view == SetTool(old(view), n, MoreArgs(ToolOf(old(view), n), id, text))
    {
      var delta := Delta(Tool(n), id, index, text, contentIndex);
      TakeOne(view, delta, optimize);
      Emit([delta]);
    }

    method EmitCallDone(n: int, item: Item)
      requires Sent() && index == |view.items| && item.source == Tool(n)
      requires ToolOf(view, n).added == 1 && ToolOf(view, n).finished.None? && ToolOf(view, n).told.None?
      requires optimize(item.name, ToolOf(view, n).sent) == Some(item.text)
      modifies this`number, this`out, this`view
      ensures Sent()
      ensures view == SetTool(old(view).(items := old(view).items + [item]), n, DoneWith(old(view).tools, n, item))
    {
      TakeCallDone(view, n, item.id, item.name, item.text, optimize);
      Emit(CallDone(n, item.id, item.name, index, item.text));
    }

    method EmitMessageAdded()
      requires Sent() && index == |view.items| && view.messages == 0
      modifies this`number, this`out, this`view
      ensures Sent() && view == old(view).(messages := 1)
    {
      var added := ItemAdded(Message, messageId, "", index);
      TakeOne(view, added, optimize);
      Emit([added]);
    }

    method EmitText(text: string)
      requires Sent() && index == |view.items|
      requires view.messages == 1 && view.messageDone.None? && contentIndex == view.message.deltas
      modifies this`number, this`out, this`view
      ensures Sent()
      ensures view == old(view).(message := Block(old(view).message.text + text, contentIndex + 1))
    {
      var delta := Delta(Message, messageId, index, text, contentIndex);
      TakeOne(view, delta, optimize);
      Emit([delta]);
    }

    method CloseThought()
      requires Sound() && inReasoning
      modifies this`number, this`out, this`view, this`inReasoning, this`thought, this`items, this`index
      ensures Sound() && !inReasoning
      ensures view.blocks == old(view.blocks) + [old(thought)] && view.tools == old(view.tools)
    {
      EmitThoughtDone(thought);
      inReasoning := false;
      index := index + 1;
      items := items + [Item(Reasoning, reasoningId, "", thought)];
      thought := "";
    }

    method OpenThought()
      requires Sound() && !inReasoning
      modifies this`number, this`out, this`view, this`inReasoning, this`thoughtIndex
      ensures Sound() && inReasoning && view.blocks == old(view.blocks) && view.tools == old(view.tools)
    {
      EmitThoughtOpened();
      inReasoning := true;
      thoughtIndex := 0;
    }

    method SendThought(text: string)
      requires Sound() && inReasoning
      modifies this`number, this`out, this`view, this`thought, this`thoughtIndex
      ensures Sound() && thought == old(thought) + text
      ensures view.blocks == old(view.blocks) && view.tools == old(view.tools)
    {
      EmitThought(text);
      thought := thought + text;
      thoughtIndex := thoughtIndex + 1;
    }

    /** Opens a block of thoughts if there is none, and sends one more piece of it. */
    method AddThought(text: string)
      requires Sound()
      modifies this`number, this`out, this`view, this`inReasoning, this`thought, this`thoughtIndex
      ensures Sound() && inReasoning && thought == Grown(old(Open()), text)
      ensures view.blocks == old(view.blocks) && view.tools == old(view.tools)
    {
      if !inReasoning {
        OpenThought();
      }
      SendThought(text);
    }

    method Think(text: string)
      requires Sound() && Tied()
      modifies this
      ensures Sound() && Tied() && pieces == old(pieces) + [Thought(text)]
    {
      ThoughtTied(mint, pieces, tools, view.tools, answer, view.blocks, Open(), text);
      AddThought(text);
      pieces := pieces + [Thought(text)];
    }

    /** Announces a call whose name is known, and sends the arguments that came before it. */
    method Announce(n: int, entry: Entry) returns (e: Entry)
      requires Sound() && (n in tools ==> !tools[n].added) && entry.name != "" && !entry.added && !entry.finalized
      modifies this`number, this`out, this`view, this`tools
      ensures Sound() && view.blocks == old(view.blocks)
      ensures n in tools && tools == old(tools)[n := e]
      ensures e.name == entry.name && e.args == entry.args && e.added && !e.finalized
      ensures e.id == Own(entry.id, mint(n))
      ensures view.tools == old(view.tools)[n := NewTool(e.id, e.name, e.args)]
    {
      var id := if entry.id != "" then entry.id else mint(n);
      e := entry.(id := id, added := true, contentIndex := if entry.args == "" then 1 else 2);
      AgreeOn(tools, view.tools, n);
      AgreeAfter(tools, view.tools, n, e, NewTool(e.id, e.name, e.args));
      EmitCallAdded(n, id, entry.name, entry.args);
      tools := tools[n := e];
    }

    method FinishCall(n: int, entry: Entry, arguments: string)
      requires Sound() && n in tools && tools[n] == entry && entry.added && !entry.finalized
      requires optimize(entry.name, entry.args) == Some(arguments)
      modifies this`number, this`out, this`view, this`tools, this`index, this`items
      ensures Sound() && view.blocks == old(view.blocks)
      ensures tools == old(tools)[n := entry.(finalized := true)]
      ensures items == old(items) + [Item(Tool(n), entry.id, entry.name, arguments)]
      ensures view.tools == old(view.tools)[n := DoneWith(old(view.tools), n, items[|items| - 1])]
    {
      var item := Item(Tool(n), entry.id, entry.name, arguments);
      AgreeDone(tools, view.tools, n, entry, item);
      EmitCallDone(n, item);
      items := items + [item];
      index := index + 1;
      tools := tools[n := entry.(finalized := true)];
    }

    /** `_finalize_tool`: a call without a name is left alone. What is built before
        the arguments turn out bad is never sent. */
    method FinalizeTool(n: int) returns (ok: bool)
      requires Sound() && n in tools && !tools[n].finalized
      modifies this`number, this`out, this`view, this`tools, this`index, this`items
      ensures Sound() && view.blocks == old(view.blocks)
      ensures ok ==> FinishedFrom(mint, old(tools), old(view.tools), tools, view.tools, {n})
      ensures !ok ==> CanRaise(optimize)
      ensures AddsOne(old(items), items, n) && (!ok ==> items == old(items))
    {
      var entry := tools[n];
      if entry.name == "" {
        OneUnnamed(mint, tools, view.tools, n);
        return true;
      }
      var arguments := optimize(entry.name, entry.args);
      if arguments.None? {
        return false;
      }
      FinalizeNamed(n, arguments.value);
      ok := true;
    }

    /** The rest of it, for a call with a name and good arguments. */
    method FinalizeNamed(n: int, arguments: string)
      requires Sound() && n in tools && !tools[n].finalized && tools[n].name != ""
      requires optimize(tools[n].name, tools[n].args) == Some(arguments)
      modifies this`number, this`out, this`view, this`tools, this`index, this`items
      ensures Sound() && view.blocks == old(view.blocks)
      ensures FinishedFrom(mint, old(tools), old(view.tools), tools, view.tools, {n})
      ensures AddsOne(old(items), items, n)
    {
      var entry := tools[n];
      if !entry.added {
        entry := Announce(n, entry);
      }
      ghost var t := ToolOf(view, n);
      FinishCall(n, entry, arguments);
      OneFinished(mint, old(tools), old(view.tools), n, entry, t, items[|items| - 1]);
    }

    /** Finishes the next call of `order`, unless that is done. */
    method FinalizeNext(order: seq<int>, i: nat, ghost first: map<int, Entry>, ghost seen: map<int, ToolView>)
      returns (ok: bool)
      requires Sound() && i < |order| && order[i] in tools
      requires FinishedUpTo(mint, first, seen, tools, view.tools, order, i)
      modifies this`number, this`out, this`view, this`tools, this`index, this`items
      ensures Sound() && view.blocks == old(view.blocks)
      ensures ok ==> FinishedUpTo(mint, first, seen, tools, view.tools, order, i + 1)
      ensures AddsOne(old(items), items, order[i]) && (!ok ==> items == old(items))
      ensures !ok ==> CanRaise(optimize)
    {
      var n := order[i];
      ok := true;
      if !tools[n].finalized {
        ok := FinalizeTool(n);
      }
      if ok {
        FinishedMore(mint, first, seen, old(tools), old(view.tools), tools, view.tools, order, i);
      }
    }

    /** Finishes the calls of `order` that are still open, in that order. */
    method FinalizeEach(order: seq<int>) returns (ok: bool)
      requires Sound() && Increasing(order) && forall i :: 0 <= i < |order| ==> order[i] in tools
      modifies this`number, this`out, this`view, this`tools, this`index, this`items
      ensures Sound() && view.blocks == old(view.blocks)
      ensures ok ==> FinishedFrom(mint, old(tools), old(view.tools), tools, view.tools, set n | n in order)
      ensures CallsInOrder(old(items), items)
      ensures !ok ==> CanRaise(optimize)
    {
      var i := 0;
      NothingFinished(mint, tools, view.tools, order);
      while i < |order|
        invariant 0 <= i <= |order|
        invariant Sound() && view.blocks == old(view.blocks)
        invariant FinishedUpTo(mint, old(tools), old(view.tools), tools, view.tools, order, i)
        invariant CallsBelow(old(items), items, NextBound(order, i))
      {
        ghost var before := items;
        ok := FinalizeNext(order, i, old(tools), old(view.tools));
        if !ok {
          return;
        }
        NextBoundHigher(order, i);
        BelowMore(old(items), before, items, order[i], NextBound(order, i + 1));
        i := i + 1;
      }
      AllFirst(order);
      ok := true;
    }

    /** One element of `tool_calls`. */
    method ReadCall(td: ToolDelta) returns (ok: bool)
      requires Sound()
      modifies this`number, this`out, this`view, this`tools
      ensures Sound() && view.blocks == old(view.blocks)
      ensures ok <==> td.index.Some?
      ensures ok ==> ReadInto(mint, old(tools), old(view.tools), tools, view.tools, td)
    {
      if td.index.None? {
        return false;
      }
      var n := td.index.value;
      var entry := EntryOf(tools, n);
      if td.id != "" {
        entry := entry.(id := td.id);
      }
      if td.name != "" {
        entry := entry.(name := td.name);
      }
      entry := entry.(args := entry.args + td.args);
      PassOn(n, entry, td);
      ok := true;
    }

    /** What a client has to know of that part, now that it is in its entry. */
    method PassOn(n: int, entry: Entry, td: ToolDelta)
      requires Sound() && td.index == Some(n)
      requires var was := EntryOf(tools, n);
               entry == was.(id := LastId(was, td), name := LastName(was, td), args := was.args + td.args)
      modifies this`number, this`out, this`view, this`tools
      ensures Sound() && view.blocks == old(view.blocks)
      ensures ReadInto(mint, old(tools), old(view.tools), tools, view.tools, td)
    {
      ReadKeeps(tools, view.tools, n, td, entry);
      if entry.name != "" && !entry.added {
        var announced := Announce(n, entry);
      } else if entry.added && td.args != "" {
        SendArgs(n, entry, td.args);
      } else {
        tools := tools[n := entry];
      }
      ReadIs(mint, old(tools), old(view.tools), tools, view.tools, td, n);
    }

    /** A further part of the arguments of an announced call, already in its entry. */
    method SendArgs(n: int, entry: Entry, piece: string)
      requires Sound() && n in tools && tools[n].added
      requires entry == tools[n].(id := entry.id, name := entry.name, args := tools[n].args + piece) && entry.name != ""
      modifies this`number, this`out, this`view, this`tools
      ensures Sound() && view.blocks == old(view.blocks)
      ensures n in tools && tools == old(tools)[n := tools[n]]
      ensures tools[n].args == entry.args && tools[n].name == entry.name && tools[n].id == entry.id
      ensures tools[n].added && tools[n].finalized == entry.finalized
      ensures view.tools == old(view.tools)[n := MoreArgs(Lookup(old(view.tools), n), entry.id, piece)]
    {
      AgreeOn(tools, view.tools, n);
      ghost var t := ToolOf(view, n);
      var e := entry.(contentIndex := entry.contentIndex + 1);
      Assoc(t.sent, t.late, piece);
      AgreeAfter(tools, view.tools, n, e, MoreArgs(t, entry.id, piece));
      EmitArgs(n, entry.id, piece, entry.contentIndex);
      tools := tools[n := e];
    }

    /** An open block of thoughts ends before anything else is said. */
    method EndThought()
      requires Sound() && Tied()
      modifies this`number, this`out, this`view, this`inReasoning, this`thought, this`items, this`index
      ensures Sound() && !inReasoning && view.tools == old(view.tools)
      ensures ClosedTo(mint, pieces, tools, view.tools, answer, view.blocks)
    {
      CloseTied(mint, pieces, tools, view.tools, answer, view.blocks, Open());
      if inReasoning {
        CloseThought();
      }
    }

    /** `tool_calls` of one chunk: an open block of thoughts ends first. */
    method ReadCalls(calls: seq<ToolDelta>) returns (ok: bool)
      requires Sound() && Tied() && |calls| > 0
      modifies this
      ensures Sound()
      ensures ok ==> Tied() && pieces == old(pieces) + Calls(calls)
      ensures !ok ==> exists i :: 0 <= i < |calls| && calls[i].index.None?
    {
      EndThought();
      ok := ReadEach(calls);
    }

    method ReadEach(calls: seq<ToolDelta>) returns (ok: bool)
      requires Sound() && !inReasoning && ClosedTo(mint, pieces, tools, view.tools, answer, view.blocks) && |calls| > 0
      modifies this`number, this`out, this`view, this`tools, this`pieces
      ensures Sound()
      ensures ok ==> Tied() && pieces == old(pieces) + Calls(calls)
      ensures !ok ==> exists i :: 0 <= i < |calls| && calls[i].index.None?
    {
      var i := 0;
      assert pieces + Calls(calls[..0]) == pieces;
      while i < |calls|
        invariant 0 <= i <= |calls|
        invariant Sound() && ClosedTo(mint, pieces, tools, view.tools, answer, view.blocks)
        invariant i > 0 ==> Tied()
        invariant pieces == old(pieces) + Calls(calls[..i])
      {
        ok := ReadOneCall(calls[i]);
        if !ok {
          return;
        }
        CallsNext(calls, i);
        i := i + 1;
      }
      assert calls[..i] == calls;
      ok := true;
    }

    method ReadOneCall(td: ToolDelta) returns (ok: bool)
      requires Sound() && !inReasoning && ClosedTo(mint, pieces, tools, view.tools, answer, view.blocks)
      modifies this`number, this`out, this`view, this`tools, this`pieces
      ensures Sound()
      ensures ok <==> td.index.Some?
      ensures ok ==> Tied() && ClosedTo(mint, pieces, tools, view.tools, answer, view.blocks)
      ensures ok ==> pieces == old(pieces) + [Call(td)]
    {
      ok := ReadCall(td);
      if ok {
        CallTied(mint, pieces, old(tools), old(view.tools), tools, view.tools, answer, view.blocks, td);
        pieces := pieces + [Call(td)];
      }
    }

    /** Finishes every open call, in index order. */
    method FinalizeAll() returns (ok: bool)
      requires Sound()
      modifies this`number, this`out, this`view, this`tools, this`index, this`items
      ensures CallsInOrder(old(items), items)
      ensures Sound() && view.blocks == old(view.blocks)
      ensures ok ==> FinishedFrom(mint, old(tools), old(view.tools), tools, view.tools, old(tools).Keys)
      ensures !ok ==> CanRaise(optimize)
    {
      var order := Sorted(tools.Keys);
      AllOf(tools.Keys, order);
      assert forall i :: 0 <= i < |order| ==> order[i] in order;
      ok := FinalizeEach(order);
    }

    /** The text of one chunk: open thoughts and calls end first, calls in index order. */
    method Say(text: string) returns (ok: bool)
      requires Sound() && Tied() && text != ""
      modifies this
      ensures Sound()
      ensures ok ==> Tied() && pieces == old(pieces) + [Answer(text)]
      ensures !ok ==> CanRaise(optimize)
    {
      EndThought();
      ok := FinalizeAll();
      if !ok {
        return;
      }
      AnswerTied(mint, pieces, old(tools), old(view.tools), tools, view.tools, answer, view.blocks, text);
      SendText(text);
      pieces := pieces + [Answer(text)];
    }

    method SendText(text: string)
      requires Sound() && text != ""
      modifies this`number, this`out, this`view, this`inMessage, this`contentIndex, this`answer
      ensures Sound() && view.blocks == old(view.blocks) && answer == old(answer) + text
      ensures view.tools == old(view.tools)
    {
      if !inMessage {
        EmitMessageAdded();
        inMessage := true;
        contentIndex := 0;
      }
      EmitText(text);
      answer := answer + text;
      contentIndex := contentIndex + 1;
    }

    /** `finish_reason == "tool_calls"` */
    method FinishCalls() returns (ok: bool)
      requires Sound() && Tied()
      modifies this
      ensures Sound()
      ensures ok ==> Tied() && pieces == old(pieces) + [Finish]
      ensures !ok ==> CanRaise(optimize)
    {
      ok := FinalizeAll();
      if !ok {
        return;
      }
      FinishTied(mint, pieces, old(tools), old(view.tools), tools, view.tools, answer, view.blocks, Open());
      pieces := pieces + [Finish];
    }

    /** One chunk of the upstream. */
    method ReadChunk(chunk: Chunk) returns (ok: bool)
      requires Sound() && Tied()
      modifies this
      ensures Sound()
      ensures ok ==> Tied() && pieces == old(pieces) + PiecesOf(chunk)
      ensures !ok ==> !Readable(Data(chunk)) || CanRaise(optimize)
    {
      ReadThought(chunk);
      ok := true;
      if chunk.tools != [] {
        ok := ReadCalls(chunk.tools);
      }
      if ok && chunk.content != "" {
        ok := Say(chunk.content);
      }
      if ok && chunk.finish {
        ok := FinishCalls();
      }
      if ok {
        Together(old(pieces), ThoughtPiece(chunk), Calls(chunk.tools), AnswerPiece(chunk), FinishPiece(chunk));
      }
    }

    /** Whatever the upstream iteration brings. */
    method ReadArrival(a: Arrival) returns (ok: bool, error: string)
      requires Sound() && Tied()
      modifies this
      ensures Sound()
      ensures ok ==> Tied() && pieces == old(pieces) + PiecesWith(a)
      ensures !ok ==> !Readable(a) || CanRaise(optimize)
    {
      ok, error := true, "chunk could not be read";
      match a {
        case Data(chunk) => ok := ReadChunk(chunk);
        case NoChoices => assert pieces + [] == pieces;
        case Broken(e) => ok, error := false, e;
      }
    }

    /** All that the upstream iteration brings, until something raises. */
    method ReadAll(arrivals: seq<Arrival>) returns (ok: bool, error: string)
      requires Sound() && Tied() && pieces == []
      modifies this
      ensures Sound()
      ensures ok ==> Tied() && pieces == Pieces(arrivals)
      ensures !ok ==> !Tame(arrivals, optimize)
    {
      var i := 0;
      ok, error := true, "";
      while ok && i < |arrivals|
        invariant 0 <= i <= |arrivals|
        invariant Sound() && (ok ==> Tied() && pieces == Pieces(arrivals[..i]))
        invariant !ok ==> !Tame(arrivals, optimize)
        decreases |arrivals| - i
      {
        PiecesNext(arrivals, i);
        ok, error := ReadArrival(arrivals[i]);
        i := i + 1;
      }
      assert ok ==> arrivals[..i] == arrivals;
    }

    method ReadThought(chunk: Chunk)
      requires Sound() && Tied()
      modifies this
      ensures Sound() && Tied() && pieces == old(pieces) + ThoughtPiece(chunk)
    {
      if chunk.reasoning != "" {
        Think(chunk.reasoning);
      }
    }

    /** The named calls that are not finished yet, in index order. */
    method Pending() returns (order: seq<int>)
      ensures forall n :: n in order <==> n in tools && IsPending(tools[n])
      ensures Increasing(order)
    {
      var all := Sorted(tools.Keys);
      order := [];
      var i := 0;
      while i < |all|
        invariant 0 <= i <= |all|
        invariant PendingOf(tools, all, i, order)
      {
        assert all[i] in all;
        PendingMore(tools, all, i, order);
        if IsPending(tools[all[i]]) {
          order := order + [all[i]];
        }
        i := i + 1;
      }
      AllFirst(all);
    }

    /** Ends what is still open after the last chunk: thoughts, then calls in index order. */
    method CloseOut() returns (ok: bool, none: bool)
      requires Sound() && Tied()
      modifies this
      ensures Sound()
      ensures ok ==> !inReasoning && AllFaithful(mint, old(pieces), view)
      ensures ok ==> view.blocks == Closed(ThoughtsIn(old(pieces)))
      ensures ok ==> answer == AnswerIn(old(pieces)) && (none <==> !AnyOpen(old(pieces)))
      ensures !ok ==> CanRaise(optimize)
    {
      EndThought();
      var pending := Pending();
      none := pending == [];
      PendingIsOpen(mint, pieces, tools, view.tools, pending);
      ok := FinalizeEach(pending);
      if ok {
        AllFinished(mint, pieces, old(tools), old(view.tools), tools, pending, view);
      }
    }

    /** What follows the last chunk. Arguments that turn out bad here raise for good. */
    method Complete() returns (end: End)
      requires Sound() && Tied()
      modifies this
      ensures |out| > 0 && out[0].body == Created && Numbered(out) && Read(out, optimize).ok
      ensures EventsFit(out, reasoningId, messageId)
      ensures end.Whole? || end.Raised?
      ensures end.Whole? ==> Faithful(mint, old(pieces), Read(out, optimize))
      ensures end.Whole? ==> out[|out| - 1].body == Completed(Read(out, optimize).items)
      ensures end.Raised? ==> CanRaise(optimize)
    {
      var ok, none := CloseOut();
      if !ok {
        return Raised;
      }
      ghost var before := view;
      SendEnd(none);
      EndFaithful(mint, old(pieces), before, view);
      end := Whole;
    }

    /** The message is done unless calls were still open, and then the whole response is. */
    method SendEnd(none: bool)
      requires Sound() && !inReasoning
      modifies this`number, this`out, this`view, this`items, this`index
      ensures Sent() && out[|out| - 1].body == Completed(view.items)
      ensures view == old(view).(items := view.items, messageDone := view.messageDone)
      ensures view.messageDone == if none && answer != "" then Some(answer) else None
    {
      var bodies: seq<Body> := [];
      ghost var before := view;
      if none && (inMessage || answer != "") {
        bodies := [ItemDone(index, Item(Message, messageId, "", answer))];
        items := items + [Item(Message, messageId, "", answer)];
        index := index + 1;
      }
      TakeEnd(before, messageId, answer, bodies, optimize);
      ItemsFit(out, reasoningId, messageId, optimize);
      Emit(bodies + [Completed(items)]);
    }

    method Fail(error: string)
      requires Sound()
      modifies this
      ensures |out| > 0 && out[0].body == Created && Numbered(out) && Read(out, optimize).ok
      ensures EventsFit(out, reasoningId, messageId)
      ensures out[|out| - 1].body == Failed(error)
    {
      TakeOne(view, Failed(error), optimize);
      Emit([Failed(error)]);
    }
  }

  /** The events that end a completed response. */
  lemma TakeEnd(v: View, id: string, answer: string, bodies: seq<Body>, optimize: Optimizer)
    requires v.ok && v.open.None?
    requires bodies == [] || (bodies == [ItemDone(|v.items|, Item(Message, id, "", answer))]
                              && v.messages == 1 && v.messageDone.None?)
    ensures bodies == [] ==> TakeAll(v, bodies + [Completed(v.items)], optimize) == v
    ensures bodies != [] ==> (TakeAll(v, bodies + [Completed(v.items + [Item(Message, id, "", answer)])], optimize)
                           == v.(items := v.items + [Item(Message, id, "", answer)], messageDone := Some(answer)))
  {
    if bodies == [] {
      assert bodies + [Completed(v.items)] == [Completed(v.items)];
      TakeOne(v, Completed(v.items), optimize);
    } else {
      var all := v.items + [Item(Message, id, "", answer)];
      assert bodies + [Completed(all)] == [bodies[0], Completed(all)];
      TakeTwo(v, bodies[0], Completed(all), optimize);
    }
  }

  lemma EndFaithful(mint: Mint, pieces: seq<Piece>, v: View, w: View)
    requires AllFaithful(mint, pieces, v) && v.open.None? && v.blocks == Closed(ThoughtsIn(pieces))
    requires v.message.text == AnswerIn(pieces) && v.messages == (if AnswerIn(pieces) == "" then 0 else 1)
    requires w == v.(items := w.items, messageDone := w.messageDone)
    requires w.messageDone == (if AnswerIn(pieces) != "" && !AnyOpen(pieces) then Some(AnswerIn(pieces)) else None)
    ensures Faithful(mint, pieces, w)
  {
    forall n ensures CallFaithful(mint, pieces, w, n) {
      assert CallFaithful(mint, pieces, v, n);
    }
  }

  lemma PendingIsOpen(mint: Mint, pieces: seq<Piece>, tools: map<int, Entry>, seen: map<int, ToolView>,
                      pending: seq<int>)
    requires AllTied(mint, tools, seen, pieces)
    requires forall n :: n in pending <==> n in tools && IsPending(tools[n])
    ensures pending == [] <==> !AnyOpen(pieces)
  {
    forall n ensures OpenIn(pieces, n) <==> n in pending {
      assert ToolTied(mint, tools, seen, pieces, n);
    }
    if |pending| > 0 {
      assert pending[0] in pending && OpenIn(pieces, pending[0]);
    }
  }

  lemma CallDoneAtEnd(mint: Mint, pieces: seq<Piece>, before: map<int, Entry>, seen: map<int, ToolView>,
                      after: map<int, Entry>, pending: set<int>, v: View, n: int)
    requires ToolTied(mint, before, seen, pieces, n) && FinishedAt(mint, before, seen, after, v.tools, pending, n)
    requires n in pending <==> n in before && IsPending(before[n])
    requires Agree(after, v.tools, n)
    ensures CallFaithful(mint, pieces, v, n)
  {
  }

  lemma AllFinished(mint: Mint, pieces: seq<Piece>, before: map<int, Entry>, seen: map<int, ToolView>,
                    after: map<int, Entry>, pending: seq<int>, v: View)
    requires AllTied(mint, before, seen, pieces)
    requires FinishedFrom(mint, before, seen, after, v.tools, set n | n in pending)
    requires forall n :: n in pending <==> n in before && IsPending(before[n])
    requires AllAgree(after, v.tools)
    ensures AllFaithful(mint, pieces, v)
  {
    var open := set n | n in pending;
    forall n ensures CallFaithful(mint, pieces, v, n) {
      assert ToolTied(mint, before, seen, pieces, n);
      assert FinishedAt(mint, before, seen, after, v.tools, open, n);
      AgreeOn(after, v.tools, n);
      CallDoneAtEnd(mint, pieces, before, seen, after, open, v, n);
    }
  }

  /** The whole of `generate_response_chat_stream`. The `[DONE]` line that follows the
      last event of a completed response has no number and is left out. */
  method Stream(arrivals: seq<Arrival>, messageId: string, reasoningId: string, optimize: Optimizer,
                mint: Mint)
    returns (out: seq<Event>, end: End)
    ensures |out| > 0 && out[0].body == Created && Numbered(out) && EventsFit(out, reasoningId, messageId)
    ensures Read(out, optimize).ok
    ensures end.Whole? ==> Faithful(mint, Pieces(arrivals), Read(out, optimize))
    ensures end.Whole? ==> out[|out| - 1].body == Completed(Read(out, optimize).items)
    ensures end.Failure? ==> out[|out| - 1].body.Failed?
    ensures Tame(arrivals, optimize) ==> end.Whole?
  {
    var t := new Translator(messageId, reasoningId, optimize, mint);
    var ok, error := t.ReadAll(arrivals);
    if ok {
      end := t.Complete();
    } else {
      t.Fail(error);
      end := Failure;
    }
    out := t.out;
  }

  /** The same, and what the client can rely on about the items, at any time. */
  method Respond(arrivals: seq<Arrival>, messageId: string, reasoningId: string, optimize: Optimizer,
                 mint: Mint)
    returns (out: seq<Event>, end: End)
    ensures |out| > 0 && out[0].body == Created && Numbered(out) && EventsFit(out, reasoningId, messageId)
    ensures Read(out, optimize).ok && ItemsTell(Read(out, optimize), optimize)
    ensures AllFit(Read(out, optimize).items, reasoningId, messageId)
    ensures end.Whole? ==> Faithful(mint, Pieces(arrivals), Read(out, optimize))
    ensures end.Whole? ==> out[|out| - 1].body == Completed(Read(out, optimize).items)
    ensures end.Failure? ==> out[|out| - 1].body.Failed?
    ensures Tame(arrivals, optimize) ==> end.Whole?
  {
    out, end := Stream(arrivals, messageId, reasoningId, optimize, mint);
    ReadTells(out, optimize);
    ItemsFit(out, reasoningId, messageId, optimize);
  }

  lemma CallsNext(calls: seq<ToolDelta>, i: nat)
    requires i < |calls|
    ensures Calls(calls[..i + 1]) == Calls(calls[..i]) + [Call(calls[i])]
  {
  }

  lemma Together(p: seq<Piece>, a: seq<Piece>, b: seq<Piece>, c: seq<Piece>, d: seq<Piece>)
    ensures p + a + b + c + d == p + (a + b + c + d)
    ensures c == [] ==> p + a + b + c == p + a + b
    ensures d == [] ==> p + a + b + c + d == p + a + b + c
    ensures b == [] ==> p + a + b == p + a
  {
  }

  lemma AllOf(s: set<int>, order: seq<int>)
    requires forall x :: x in order <==> x in s
    ensures (set n | n in order) == s
  {
    var members := set n | n in order;
    assert forall n :: n in members <==> n in s;
  }
}
