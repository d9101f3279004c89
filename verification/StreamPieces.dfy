/** An upstream chat stream as a flat series of pieces, what they say, and what a response to
    them must be. */
module StreamPieces {
  import opened Prelude
  import opened ResponseEvents
  import opened Text

  /** Part of one tool call. No `index` stands for one that is not a number: reading it raises. */
  datatype ToolDelta = ToolDelta(index: Option<int>, id: string, name: string, args: string)

  /** The delta of a chunk's first choice, and whether it finishes with `tool_calls`. */
  datatype Chunk = Chunk(reasoning: string, tools: seq<ToolDelta>, content: string, finish: bool)

  /** What the upstream iteration brings: a chunk with or without choices, or an exception. */
  datatype Arrival = Data(chunk: Chunk) | NoChoices | Broken(error: string)

  // ---------------------------------------------------------------- what the upstream said

  /** The stream as a flat series of pieces, in the order they are handled. */
  datatype Piece = Thought(text: string) | Call(tool: ToolDelta) | Answer(text: string) | Finish

  function Calls(tools: seq<ToolDelta>): seq<Piece> {
    seq(|tools|, i requires 0 <= i < |tools| => Call(tools[i]))
  }

  function ThoughtPiece(c: Chunk): seq<Piece> {
    if c.reasoning == "" then [] else [Thought(c.reasoning)]
  }

  function AnswerPiece(c: Chunk): seq<Piece> {
    if c.content == "" then [] else [Answer(c.content)]
  }

  function FinishPiece(c: Chunk): seq<Piece> {
    if c.finish then [Finish] else []
  }

  function PiecesOf(c: Chunk): seq<Piece> {
    ThoughtPiece(c) + Calls(c.tools) + AnswerPiece(c) + FinishPiece(c)
  }

  function PiecesWith(a: Arrival): seq<Piece> {
    if a.Data? then PiecesOf(a.chunk) else []
  }

  function Pieces(arrivals: seq<Arrival>): seq<Piece> {
    if arrivals == [] then []
    else Pieces(arrivals[..|arrivals| - 1]) + PiecesWith(arrivals[|arrivals| - 1])
  }

  lemma PiecesNext(arrivals: seq<Arrival>, i: nat)
    requires i < |arrivals|
    ensures Pieces(arrivals[..i + 1]) == Pieces(arrivals[..i]) + PiecesWith(arrivals[i])
  {
    assert arrivals[..i + 1][..i] == arrivals[..i];
  }

  /** Nothing about it raises. */
  predicate Readable(a: Arrival) {
    match a
    case Data(chunk) => forall j :: 0 <= j < |chunk.tools| ==> chunk.tools[j].index.Some?
    case NoChoices => true
    case Broken(_) => false
  }

  /** Everything said as arguments of call `n`. */
  function ArgsIn(pieces: seq<Piece>, n: int): string {
    if pieces == [] then ""
    else
      var p := pieces[|pieces| - 1];
      ArgsIn(pieces[..|pieces| - 1], n) + (if p.Call? && p.tool.index == Some(n) then p.tool.args else "")
  }

  predicate Names(p: Piece, n: int) {
    p.Call? && p.tool.index == Some(n) && p.tool.name != ""
  }

  /** The name it was given last, empty without one. */
  function NameIn(pieces: seq<Piece>, n: int): string {
    if pieces == [] then ""
    else
      var p := pieces[|pieces| - 1];
      if Names(p, n) then p.tool.name else NameIn(pieces[..|pieces| - 1], n)
  }

  /** The name it was given first. */
  function FirstNameIn(pieces: seq<Piece>, n: int): string {
    if pieces == [] then ""
    else
      var p := pieces[|pieces| - 1];
      var first := FirstNameIn(pieces[..|pieces| - 1], n);
      if first == "" && Names(p, n) then p.tool.name else first
  }

  predicate NamedIn(pieces: seq<Piece>, n: int) {
    NameIn(pieces, n) != ""
  }

  // ---------------------------------------------------------------- ids

  predicate Ids(p: Piece, n: int) {
    p.Call? && p.tool.index == Some(n) && p.tool.id != ""
  }

  /** The id call `n` was given last, empty without one. */
  function IdIn(pieces: seq<Piece>, n: int): string {
    if pieces == [] then ""
    else
      var p := pieces[|pieces| - 1];
      if Ids(p, n) then p.tool.id else IdIn(pieces[..|pieces| - 1], n)
  }

  /** The id it had when it got its first name. */
  function AnnouncedIdIn(pieces: seq<Piece>, n: int): string {
    if pieces == [] then ""
    else
      var init := pieces[..|pieces| - 1];
      if NamedIn(init, n) then AnnouncedIdIn(init, n)
      else if Names(pieces[|pieces| - 1], n) then IdIn(pieces, n)
      else ""
  }

  /** The id it had when it was closed. */
  function ClosedIdIn(pieces: seq<Piece>, n: int): string {
    if pieces == [] then ""
    else
      var init := pieces[..|pieces| - 1];
      if ClosedIn(init, n).Some? then ClosedIdIn(init, n)
      else if Closes(pieces[|pieces| - 1]) && NamedIn(init, n) then IdIn(init, n)
      else ""
  }

  function FinalIdIn(pieces: seq<Piece>, n: int): string {
    if ClosedIn(pieces, n).Some? then ClosedIdIn(pieces, n) else IdIn(pieces, n)
  }

  /** An id of its own, or the one made up for it. */
  function Own(id: string, made: string): string {
    if id != "" then id else made
  }

  /** After its name the call is given no other id than the one it was announced with. */
  predicate IdKept(pieces: seq<Piece>, n: int, made: string) {
    pieces != [] ==>
      var init, p := pieces[..|pieces| - 1], pieces[|pieces| - 1];
      && IdKept(init, n, made)
      && (NamedIn(init, n) && Ids(p, n) ==> p.tool.id == Own(AnnouncedIdIn(init, n), made))
  }

  predicate Closes(p: Piece) {
    p.Answer? || p.Finish?
  }

  /** Name and arguments of a call when the first answer or finish after its name closed it. */
  function ClosedIn(pieces: seq<Piece>, n: int): Option<(string, string)> {
    if pieces == [] then None
    else
      var init := pieces[..|pieces| - 1];
      var closed := ClosedIn(init, n);
      if closed.None? && Closes(pieces[|pieces| - 1]) && NamedIn(init, n) then Some((NameIn(init, n), ArgsIn(init, n)))
      else closed
  }

  /** What the item of a named call is made of: the end closes the calls that are still open. */
  function FinalIn(pieces: seq<Piece>, n: int): (string, string) {
    if ClosedIn(pieces, n).Some? then ClosedIn(pieces, n).value else (NameIn(pieces, n), ArgsIn(pieces, n))
  }

  /** A named call stays open until the next answer or finish piece, and never opens again. */
  predicate OpenIn(pieces: seq<Piece>, n: int) {
    NamedIn(pieces, n) && ClosedIn(pieces, n).None?
  }

  function AnswerIn(pieces: seq<Piece>): string {
    if pieces == [] then ""
    else
      var p := pieces[|pieces| - 1];
      AnswerIn(pieces[..|pieces| - 1]) + (if p.Answer? then p.text else "")
  }

  /** A block of thoughts with one more piece, or a new one. */
  function Grown(open: Option<string>, text: string): string {
    (if open.Some? then open.value else "") + text
  }

  /** Thoughts up to the next call or answer make one block. */
  function ThoughtsIn(pieces: seq<Piece>): (seq<string>, Option<string>) {
    if pieces == [] then ([], None)
    else
      var (blocks, open) := ThoughtsIn(pieces[..|pieces| - 1]);
      match pieces[|pieces| - 1]
      case Thought(text) => (blocks, Some(Grown(open, text)))
      case Call(_) => (Closed((blocks, open)), None)
      case Answer(_) => (Closed((blocks, open)), None)
      case Finish => (blocks, open)
  }

  function Closed(state: (seq<string>, Option<string>)): seq<string> {
    if state.1.Some? then state.0 + [state.1.value] else state.0
  }

  // ---------------------------------------------------------------- one more piece

  lemma OneMorePiece(pieces: seq<Piece>, p: Piece)
    ensures AnswerIn(pieces + [p]) == AnswerIn(pieces) + (if p.Answer? then p.text else "")
    ensures ThoughtsIn(pieces + [p]) ==
              match p
              case Thought(text) => (ThoughtsIn(pieces).0, Some(Grown(ThoughtsIn(pieces).1, text)))
              case Finish => ThoughtsIn(pieces)
              case _ => (Closed(ThoughtsIn(pieces)), None)
  {
    assert (pieces + [p])[..|pieces|] == pieces;
  }

  lemma OneMorePieceFor(pieces: seq<Piece>, p: Piece, n: int)
    ensures ArgsIn(pieces + [p], n)
         == ArgsIn(pieces, n) + (if p.Call? && p.tool.index == Some(n) then p.tool.args else "")
    ensures NameIn(pieces + [p], n) == if Names(p, n) then p.tool.name else NameIn(pieces, n)
    ensures FirstNameIn(pieces + [p], n)
         == if FirstNameIn(pieces, n) == "" && Names(p, n) then p.tool.name else FirstNameIn(pieces, n)
    ensures ClosedIn(pieces + [p], n)
         == if ClosedIn(pieces, n).None? && Closes(p) && NamedIn(pieces, n)
            then Some((NameIn(pieces, n), ArgsIn(pieces, n)))
            else ClosedIn(pieces, n)
  {
    assert (pieces + [p])[..|pieces|] == pieces;
  }

  lemma OneMoreIdFor(pieces: seq<Piece>, p: Piece, n: int, made: string)
    ensures IdIn(pieces + [p], n) == if Ids(p, n) then p.tool.id else IdIn(pieces, n)
    ensures AnnouncedIdIn(pieces + [p], n)
         == if NamedIn(pieces, n) then AnnouncedIdIn(pieces, n)
            else if Names(p, n) then IdIn(pieces + [p], n) else ""
    ensures ClosedIdIn(pieces + [p], n)
         == if ClosedIn(pieces, n).Some? then ClosedIdIn(pieces, n)
            else if Closes(p) && NamedIn(pieces, n) then IdIn(pieces, n) else ""
    ensures IdKept(pieces + [p], n, made) <==>
              && IdKept(pieces, n, made)
              && (NamedIn(pieces, n) && Ids(p, n) ==> p.tool.id == Own(AnnouncedIdIn(pieces, n), made))
  {
    assert (pieces + [p])[..|pieces|] == pieces;
  }

  /** The id is the last one that was given, and empty exactly if none was. */
  lemma {:induction false} IdMeaning(pieces: seq<Piece>, n: int)
    ensures IdIn(pieces, n) != "" <==> exists i :: 0 <= i < |pieces| && Ids(pieces[i], n)
    ensures forall i :: 0 <= i < |pieces| && Ids(pieces[i], n)
                        && (forall j :: i < j < |pieces| ==> !Ids(pieces[j], n)) ==>
              IdIn(pieces, n) == pieces[i].tool.id
    decreases |pieces|
  {
    if pieces != [] {
      var init, p := pieces[..|pieces| - 1], pieces[|pieces| - 1];
      IdMeaning(init, n);
      assert forall i :: 0 <= i < |init| ==> init[i] == pieces[i];
      if i :| 0 <= i < |init| && Ids(init[i], n) {
        assert Ids(pieces[i], n);
      }
      if Ids(p, n) {
        assert Ids(pieces[|pieces| - 1], n);
      }
    }
  }

  /** The announced id is the one the call had after the first piece with its name. */
  lemma {:induction false} AnnouncedMeaning(pieces: seq<Piece>, n: int, k: nat)
    requires k < |pieces| && !NamedIn(pieces[..k], n) && Names(pieces[k], n)
    ensures AnnouncedIdIn(pieces, n) == IdIn(pieces[..k + 1], n)
    decreases |pieces|
  {
    var init := pieces[..|pieces| - 1];
    if k == |init| {
      assert pieces[..k] == init && pieces[..k + 1] == pieces;
    } else {
      assert init[..k] == pieces[..k] && init[..k + 1] == pieces[..k + 1];
      AnnouncedMeaning(init, n, k);
      NamedAt(init, n, k);
      NamedStays(init, n, k + 1);
    }
  }

  lemma NamedAt(pieces: seq<Piece>, n: int, k: nat)
    requires k < |pieces| && Names(pieces[k], n)
    ensures NamedIn(pieces[..k + 1], n)
  {
    assert pieces[..k + 1][k] == pieces[k];
  }

  /** That it keeps its id: every id it is given once it has a name is the announced one. */
  lemma {:induction false} KeptMeaning(pieces: seq<Piece>, n: int, made: string)
    ensures IdKept(pieces, n, made) <==>
              forall i :: 0 <= i < |pieces| && Ids(pieces[i], n) && NamedIn(pieces[..i], n) ==>
                pieces[i].tool.id == Own(AnnouncedIdIn(pieces, n), made)
    decreases |pieces|
  {
    if pieces != [] {
      var init, p := pieces[..|pieces| - 1], pieces[|pieces| - 1];
      assert pieces == init + [p];
      KeptMeaning(init, n, made);
      OneMoreIdFor(init, p, n, made);
      forall i | 0 <= i < |init| ensures init[..i] == pieces[..i] && init[i] == pieces[i] {
      }
      if NamedIn(init, n) {
        assert AnnouncedIdIn(pieces, n) == AnnouncedIdIn(init, n);
      } else {
        forall i | 0 <= i <= |init| ensures !NamedIn(pieces[..i], n) {
          UnnamedBefore(init, n, i);
          assert init[..i] == pieces[..i];
        }
      }
    }
  }

  lemma UnnamedBefore(pieces: seq<Piece>, n: int, k: nat)
    requires k <= |pieces| && !NamedIn(pieces, n)
    ensures !NamedIn(pieces[..k], n)
  {
    if NamedIn(pieces[..k], n) {
      NamedStays(pieces, n, k);
    }
  }

  // ---------------------------------------------------------------- what being named, closed and late means

  /** A call has a name exactly when some piece gave it one. */
  lemma {:induction false} NamedMeaning(pieces: seq<Piece>, n: int)
    ensures NamedIn(pieces, n) <==> exists i :: 0 <= i < |pieces| && Names(pieces[i], n)
    ensures NamedIn(pieces, n) <==> FirstNameIn(pieces, n) != ""
    decreases |pieces|
  {
    if pieces != [] {
      var init, p := pieces[..|pieces| - 1], pieces[|pieces| - 1];
      NamedMeaning(init, n);
      if i :| 0 <= i < |init| && Names(init[i], n) {
        assert Names(pieces[i], n);
      }
      if Names(p, n) {
        assert Names(pieces[|pieces| - 1], n);
      }
    }
  }

  /** The piece at `k` is the first answer or finish after the call's name. */
  ghost predicate ClosedAt(pieces: seq<Piece>, n: int, k: nat) {
    && k < |pieces| && Closes(pieces[k]) && NamedIn(pieces[..k], n)
    && forall i :: 0 <= i < k && Closes(pieces[i]) ==> !NamedIn(pieces[..i], n)
  }

  lemma ClosedAtLonger(pieces: seq<Piece>, p: Piece, n: int, k: nat)
    requires k < |pieces|
    ensures ClosedAt(pieces + [p], n, k) <==> ClosedAt(pieces, n, k)
  {
    var more := pieces + [p];
    assert forall i :: 0 <= i <= k ==> more[..i] == pieces[..i];
    if ClosedAt(pieces, n, k) {
      forall i | 0 <= i < k && Closes(more[i]) ensures !NamedIn(more[..i], n) {
        assert Closes(pieces[i]) && more[..i] == pieces[..i];
      }
    }
    if ClosedAt(more, n, k) {
      forall i | 0 <= i < k && Closes(pieces[i]) ensures !NamedIn(pieces[..i], n) {
        assert Closes(more[i]) && more[..i] == pieces[..i];
      }
    }
  }

  lemma {:induction false} NamedStays(pieces: seq<Piece>, n: int, k: nat)
    requires k <= |pieces| && NamedIn(pieces[..k], n)
    ensures NamedIn(pieces, n)
    decreases |pieces|
  {
    if k == |pieces| {
      assert pieces[..k] == pieces;
    } else {
      var init := pieces[..|pieces| - 1];
      assert init[..k] == pieces[..k];
      NamedStays(init, n, k);
    }
  }

  /** A call is closed by the first answer or finish after its name, and never without one. */
  lemma {:induction false} ClosedMeaning(pieces: seq<Piece>, n: int)
    ensures ClosedIn(pieces, n).Some? <==> exists k :: 0 <= k < |pieces| && Closes(pieces[k]) && NamedIn(pieces[..k], n)
    ensures forall k: nat :: ClosedAt(pieces, n, k) ==>
              ClosedIn(pieces, n) == Some((NameIn(pieces[..k], n), ArgsIn(pieces[..k], n)))
    decreases |pieces|
  {
    if pieces != [] {
      var init, p := pieces[..|pieces| - 1], pieces[|pieces| - 1];
      assert pieces == init + [p];
      ClosedMeaning(init, n);
      ClosedStep(init, p, n);
    }
  }

  lemma ClosedStep(init: seq<Piece>, p: Piece, n: int)
    requires ClosedIn(init, n).Some? <==> exists k :: 0 <= k < |init| && Closes(init[k]) && NamedIn(init[..k], n)
    requires forall k: nat :: ClosedAt(init, n, k) ==>
               ClosedIn(init, n) == Some((NameIn(init[..k], n), ArgsIn(init[..k], n)))
    ensures var pieces := init + [p];
            && (ClosedIn(pieces, n).Some? <==>
                exists k :: 0 <= k < |pieces| && Closes(pieces[k]) && NamedIn(pieces[..k], n))
            && forall k: nat :: ClosedAt(pieces, n, k) ==>
                 ClosedIn(pieces, n) == Some((NameIn(pieces[..k], n), ArgsIn(pieces[..k], n)))
  {
    var pieces := init + [p];
    OneMorePieceFor(init, p, n);
    assert pieces[..|init|] == init && pieces[|init|] == p;
    forall k | 0 <= k < |init| ensures pieces[..k] == init[..k] && pieces[k] == init[k] {
    }
    forall k: nat | ClosedAt(pieces, n, k)
      ensures ClosedIn(pieces, n) == Some((NameIn(pieces[..k], n), ArgsIn(pieces[..k], n)))
    {
      if k < |init| {
        ClosedAtLonger(init, p, n, k);
      }
    }
  }

  /** Arguments that come after a call was closed. */
  predicate LatePiece(pieces: seq<Piece>, n: int, i: nat)
    requires i < |pieces|
  {
    var p := pieces[i];
    p.Call? && p.tool.index == Some(n) && p.tool.args != "" && ClosedIn(pieces[..i], n).Some?
  }

  predicate LateIn(pieces: seq<Piece>, n: int) {
    exists i: nat :: i < |pieces| && LatePiece(pieces, n, i)
  }

  lemma {:induction false} LateStep(init: seq<Piece>, p: Piece, n: int)
    ensures LateIn(init + [p], n) <==> LateIn(init, n) || LatePiece(init + [p], n, |init|)
  {
    var pieces := init + [p];
    forall i: nat | i < |init| ensures LatePiece(pieces, n, i) <==> LatePiece(init, n, i) {
      assert pieces[..i] == init[..i];
    }
    if LateIn(init, n) {
      var i: nat :| i < |init| && LatePiece(init, n, i);
      assert LatePiece(pieces, n, i);
    }
  }

  /** The item of a call is made of all its arguments exactly when none came after it was
      closed. What came late is what is missing at the end. */
  lemma {:induction false} WholeExactly(pieces: seq<Piece>, n: int) returns (late: string)
    ensures ArgsIn(pieces, n) == FinalIn(pieces, n).1 + late
    ensures late == "" <==> !LateIn(pieces, n)
    ensures FinalIn(pieces, n).1 == ArgsIn(pieces, n) <==> !LateIn(pieces, n)
    decreases |pieces|
  {
    late := "";
    if pieces != [] {
      var init, p := pieces[..|pieces| - 1], pieces[|pieces| - 1];
      assert pieces == init + [p];
      var before := WholeExactly(init, n);
      OneMorePieceFor(init, p, n);
      LateStep(init, p, n);
      assert pieces[..|init|] == init;
      late := LateAfter(init, p, n, before);
    }
  }

  lemma LateAfter(init: seq<Piece>, p: Piece, n: int, before: string) returns (late: string)
    requires ArgsIn(init, n) == FinalIn(init, n).1 + before && (before == "" <==> !LateIn(init, n))
    requires LateIn(init + [p], n) <==> LateIn(init, n) || LatePiece(init + [p], n, |init|)
    ensures ArgsIn(init + [p], n) == FinalIn(init + [p], n).1 + late
    ensures late == "" <==> !LateIn(init + [p], n)
  {
    OneMorePieceFor(init, p, n);
    assert (init + [p])[..|init|] == init;
    var args := if p.Call? && p.tool.index == Some(n) then p.tool.args else "";
    if ClosedIn(init, n).Some? {
      late := before + args;
      Assoc(FinalIn(init, n).1, before, args);
    } else {
      NoLateOpen(init, n);
      late := "";
    }
  }

  /** Nothing is late for a call that is not closed. */
  lemma {:induction false} NoLateOpen(pieces: seq<Piece>, n: int)
    requires ClosedIn(pieces, n).None?
    ensures !LateIn(pieces, n)
    decreases |pieces|
  {
    if pieces != [] {
      var init, p := pieces[..|pieces| - 1], pieces[|pieces| - 1];
      assert pieces == init + [p];
      OneMorePieceFor(init, p, n);
      NoLateOpen(init, n);
      LateStep(init, p, n);
      assert pieces[..|init|] == init;
    }
  }

  /** A call keeps the name it was announced with if it is never given another one. */
  lemma {:induction false} OneName(pieces: seq<Piece>, n: int, name: string)
    requires forall i :: 0 <= i < |pieces| && Names(pieces[i], n) ==> pieces[i].tool.name == name
    requires NamedIn(pieces, n)
    ensures FirstNameIn(pieces, n) == name && NameIn(pieces, n) == name && FinalIn(pieces, n).0 == name
    decreases |pieces|
  {
    var init, p := pieces[..|pieces| - 1], pieces[|pieces| - 1];
    assert pieces == init + [p];
    OneMorePieceFor(init, p, n);
    NamedMeaning(init, n);
    if NamedIn(init, n) {
      OneName(init, n, name);
    } else {
      UnnamedOpen(init, n);
    }
  }

  lemma {:induction false} UnnamedOpen(pieces: seq<Piece>, n: int)
    requires !NamedIn(pieces, n)
    ensures ClosedIn(pieces, n).None?
    decreases |pieces|
  {
    if pieces != [] {
      var init, p := pieces[..|pieces| - 1], pieces[|pieces| - 1];
      assert pieces == init + [p];
      OneMorePieceFor(init, p, n);
      UnnamedOpen(init, n);
    }
  }

  // ---------------------------------------------------------------- what a whole response must be

  ghost predicate AnyOpen(pieces: seq<Piece>) {
    exists n :: OpenIn(pieces, n)
  }

  /** The id made up for a call that comes without one. */
  type Mint = int -> string

  /** A named call was announced once, under its first name, and done once, with the name and
      the arguments it had when it was closed. What came later was still sent. Both times it
      went by the id it had then, or by a made up one without any, and by one id throughout if
      it was not given another. A call that never got a name left no trace. */
  ghost predicate CallFaithful(mint: Mint, pieces: seq<Piece>, v: View, n: int) {
    var t := ToolOf(v, n);
    if NamedIn(pieces, n) then
      && t.added == 1 && t.announced == FirstNameIn(pieces, n) && t.id == Own(AnnouncedIdIn(pieces, n), mint(n))
      && t.finished.Some? && (t.finished.value.name, t.sent) == FinalIn(pieces, n)
      && t.finished.value.id == Own(FinalIdIn(pieces, n), mint(n))
      && t.told == t.finished && t.sent + t.late == ArgsIn(pieces, n)
      && (IdKept(pieces, n, mint(n)) ==> t.steady && t.finished.value.id == t.id)
    else t == NO_TOOL
  }

  ghost predicate AllFaithful(mint: Mint, pieces: seq<Piece>, v: View) {
    forall n {:trigger CallFaithful(mint, pieces, v, n)} :: CallFaithful(mint, pieces, v, n)
  }

  /** The client of a completed response has what the upstream said: each block of
      thoughts, each named call, the answer. The message is closed only if no call
      was still open at the end. */
  ghost predicate Faithful(mint: Mint, pieces: seq<Piece>, v: View) {
    && AllFaithful(mint, pieces, v)
    && v.open.None? && v.blocks == Closed(ThoughtsIn(pieces))
    && v.message.text == AnswerIn(pieces)
    && v.messages == (if AnswerIn(pieces) == "" then 0 else 1)
    && v.messageDone == (if AnswerIn(pieces) != "" && !AnyOpen(pieces) then Some(AnswerIn(pieces)) else None)
  }
}
