/** What the finished calls of a completed response carry. */
module FinishedCalls {
  import opened Prelude
  import opened ResponseEvents
  import opened StreamPieces
  import opened Text
  import ToolArguments

  // ---------------------------------------------------------------- the arguments of a finished call

  /** In a completed response a named call has one item. It carries the name and the optimized
      arguments the call had when it was closed, and that is all of its arguments exactly when
      no piece of them came later. */
  lemma ItemOfCall(mint: Mint, pieces: seq<Piece>, v: View, optimize: Optimizer, n: int) returns (i: nat)
    requires Faithful(mint, pieces, v) && ItemsTell(v, optimize) && NamedIn(pieces, n)
    ensures i < |v.items| && v.items[i].source == Tool(n)
    ensures forall j :: 0 <= j < |v.items| && v.items[j].source == Tool(n) ==> j == i
    ensures var (name, args) := FinalIn(pieces, n);
            v.items[i].name == name && ToolOf(v, n).sent == args && optimize(name, args) == Some(v.items[i].text)
    ensures ToolOf(v, n).sent == ArgsIn(pieces, n) <==> !LateIn(pieces, n)
    ensures ToolOf(v, n).late == "" <==> !LateIn(pieces, n)
    ensures ToolOf(v, n).announced == FirstNameIn(pieces, n)
    ensures v.items[i].id == Own(FinalIdIn(pieces, n), mint(n))
  {
    assert CallFaithful(mint, pieces, v, n) && CallTells(v, optimize, n);
    var t := ToolOf(v, n);
    i :| 0 <= i < |v.items| && v.items[i] == t.finished.value;
    var late := WholeExactly(pieces, n);
    Cancel(t.sent, t.late, late);
  }

  /** With nothing late the item carries the optimized form of everything said as arguments. */
  lemma AllArguments(mint: Mint, pieces: seq<Piece>, v: View, optimize: Optimizer, n: int) returns (i: nat)
    requires Faithful(mint, pieces, v) && ItemsTell(v, optimize) && NamedIn(pieces, n) && !LateIn(pieces, n)
    ensures i < |v.items| && v.items[i].source == Tool(n)
    ensures optimize(v.items[i].name, ArgsIn(pieces, n)) == Some(v.items[i].text)
  {
    i := ItemOfCall(mint, pieces, v, optimize, n);
  }

  // ---------------------------------------------------------------- the id of a call

  const MADE := "toolcall_"

  /** `_get_tool_call_id`: what a client answers a call with. */
  function CallId(id: string): string {
    "call_" + (if MADE <= id then id[|MADE|..] else id)
  }

  /** Two ids are answered alike exactly if they differ in one such prefix at most. */
  lemma CallIdExactly(a: string, b: string)
    ensures CallId(a) == CallId(b) <==>
              a == b || (a == MADE + b && !(MADE <= b)) || (b == MADE + a && !(MADE <= a))
  {
    var x, y := CallId(a), CallId(b);
    assert x[5..] == (if MADE <= a then a[|MADE|..] else a);
    assert y[5..] == (if MADE <= b then b[|MADE|..] else b);
    assert MADE <= a ==> a == MADE + a[|MADE|..];
    assert MADE <= b ==> b == MADE + b[|MADE|..];
  }

  /** A call is announced under the id it was given last before or with its first name, or
      under one made up for it without any. If it is given no other one later, every event
      about it and its item carry that id. */
  lemma OneIdThroughout(mint: Mint, pieces: seq<Piece>, out: seq<Event>, optimize: Optimizer, n: int)
    returns (i: nat)
    requires Faithful(mint, pieces, Read(out, optimize)) && Read(out, optimize).ok
    requires ItemsTell(Read(out, optimize), optimize) && NamedIn(pieces, n)
    ensures ToolOf(Read(out, optimize), n).id == Own(AnnouncedIdIn(pieces, n), mint(n))
    ensures i < |Read(out, optimize).items| && Read(out, optimize).items[i].source == Tool(n)
    ensures IdKept(pieces, n, mint(n)) ==>
              && AllUnder(out, n, Own(AnnouncedIdIn(pieces, n), mint(n)))
              && Read(out, optimize).items[i].id == Own(AnnouncedIdIn(pieces, n), mint(n))
  {
    var v := Read(out, optimize);
    assert CallFaithful(mint, pieces, v, n);
    i := ItemOfCall(mint, pieces, v, optimize, n);
    UnderOneId(out, optimize, n);
  }

  /** For instance. */
  lemma OwnId(mint: Mint, td: ToolDelta, n: int, out: seq<Event>, optimize: Optimizer)
    requires td.index == Some(n) && td.name != "" && td.id != ""
    requires Faithful(mint, [Call(td), Finish], Read(out, optimize)) && Read(out, optimize).ok
    requires ItemsTell(Read(out, optimize), optimize)
    ensures AllUnder(out, n, td.id)
  {
    var a := [Call(td)];
    assert a == [] + [Call(td)] && [Call(td), Finish] == a + [Finish];
    OneMorePieceFor([], Call(td), n);
    OneMoreIdFor([], Call(td), n, mint(n));
    OneMorePieceFor(a, Finish, n);
    OneMoreIdFor(a, Finish, n, mint(n));
    var i := OneIdThroughout(mint, [Call(td), Finish], out, optimize, n);
  }

  /** An id that comes after the name is not announced any more, but it is the item's. */
  lemma LaterId(mint: Mint, first: ToolDelta, second: ToolDelta, n: int, v: View, optimize: Optimizer)
    returns (i: nat)
    requires first.index == Some(n) && second.index == Some(n) && first.name != "" && second.id != ""
    requires Faithful(mint, [Call(first), Call(second)], v) && ItemsTell(v, optimize)
    ensures ToolOf(v, n).id == if first.id != "" then first.id else mint(n)
    ensures i < |v.items| && v.items[i].source == Tool(n) && v.items[i].id == second.id
  {
    var a := [Call(first)];
    assert a == [] + [Call(first)] && [Call(first), Call(second)] == a + [Call(second)];
    OneMorePieceFor([], Call(first), n);
    OneMoreIdFor([], Call(first), n, mint(n));
    OneMorePieceFor(a, Call(second), n);
    OneMoreIdFor(a, Call(second), n, mint(n));
    assert CallFaithful(mint, [Call(first), Call(second)], v, n);
    i := ItemOfCall(mint, [Call(first), Call(second)], v, optimize, n);
  }

  // ---------------------------------------------------------------- late arguments and names

  /** Nothing that is said of call `n`. */
  predicate Elsewhere(p: Piece, n: int) {
    !p.Call? || p.tool.index != Some(n)
  }

  lemma SplitCall(first: ToolDelta, p: Piece, second: ToolDelta, n: int)
    requires first.index == Some(n) && second.index == Some(n) && first.name != "" && Elsewhere(p, n)
    ensures var pieces := [Call(first), p, Call(second)];
            && ArgsIn(pieces, n) == first.args + second.args && NamedIn(pieces, n)
            && FirstNameIn(pieces, n) == first.name
            && NameIn(pieces, n) == (if second.name != "" then second.name else first.name)
            && ClosedIn(pieces, n) == if p.Answer? || p.Finish? then Some((first.name, first.args)) else None
  {
    var a, b := [Call(first)], [Call(first), p];
    assert a == [] + [Call(first)] && b == a + [p];
    assert [Call(first), p, Call(second)] == b + [Call(second)];
    OneMorePieceFor([], Call(first), n);
    OneMorePieceFor(a, p, n);
    OneMorePieceFor(b, Call(second), n);
    assert "" + first.args == first.args && first.args + "" == first.args;
  }

  /** An answer or a finish between two parts of a call: its item has the first part only, and
      the second is still sent after it is done. */
  lemma LateArguments(mint: Mint, first: ToolDelta, p: Piece, second: ToolDelta, n: int, v: View, optimize: Optimizer)
    returns (i: nat)
    requires first.index == Some(n) && second.index == Some(n) && first.name != "" && (p.Answer? || p.Finish?)
    requires Faithful(mint, [Call(first), p, Call(second)], v) && ItemsTell(v, optimize)
    ensures i < |v.items| && v.items[i].source == Tool(n)
    ensures optimize(first.name, first.args) == Some(v.items[i].text)
    ensures ToolOf(v, n).late == second.args
  {
    var pieces := [Call(first), p, Call(second)];
    SplitCall(first, p, second, n);
    i := ItemOfCall(mint, pieces, v, optimize, n);
    assert CallFaithful(mint, pieces, v, n);
    Cancel(first.args, ToolOf(v, n).late, second.args);
  }

  /** Thoughts or a part of another call between them: its item has both parts. */
  lemma WholeArguments(mint: Mint, first: ToolDelta, p: Piece, second: ToolDelta, n: int, v: View,
                       optimize: Optimizer)
    returns (i: nat)
    requires first.index == Some(n) && second.index == Some(n) && first.name != "" && second.name == ""
    requires p.Thought? || (p.Call? && p.tool.index != Some(n))
    requires Faithful(mint, [Call(first), p, Call(second)], v) && ItemsTell(v, optimize)
    ensures i < |v.items| && v.items[i].source == Tool(n) && v.items[i].name == first.name
    ensures optimize(first.name, first.args + second.args) == Some(v.items[i].text)
    ensures ToolOf(v, n).late == ""
  {
    var pieces := [Call(first), p, Call(second)];
    SplitCall(first, p, second, n);
    i := ItemOfCall(mint, pieces, v, optimize, n);
    assert CallFaithful(mint, pieces, v, n);
    var all := first.args + second.args;
    assert all + "" == all;
    Cancel(all, ToolOf(v, n).late, "");
  }

  const HALF := ToolDelta(Some(0), "id", "f", "{\"a\":")
  const OTHER_HALF := ToolDelta(Some(0), "", "", "1}")

  /** For instance. */
  lemma HalfAnObject(mint: Mint, v: View, optimize: Optimizer) returns (i: nat)
    requires Faithful(mint, [Call(HALF), Answer("x"), Call(OTHER_HALF)], v) && ItemsTell(v, optimize)
    ensures i < |v.items| && v.items[i].source == Tool(0)
    ensures optimize("f", "{\"a\":") == Some(v.items[i].text) && ToolOf(v, 0).late == "1}"
  {
    i := LateArguments(mint, HALF, Answer("x"), OTHER_HALF, 0, v, optimize);
  }

  /** A name that comes after the first one is not announced any more, but it is the item's. */
  lemma RenamedCall(mint: Mint, first: ToolDelta, second: ToolDelta, n: int, v: View, optimize: Optimizer)
    returns (i: nat)
    requires first.index == Some(n) && second.index == Some(n) && first.name != "" && second.name != ""
    requires Faithful(mint, [Call(first), Call(second)], v) && ItemsTell(v, optimize)
    ensures ToolOf(v, n).announced == first.name
    ensures i < |v.items| && v.items[i].source == Tool(n) && v.items[i].name == second.name
  {
    var a := [Call(first)];
    assert a == [] + [Call(first)] && [Call(first), Call(second)] == a + [Call(second)];
    OneMorePieceFor([], Call(first), n);
    OneMorePieceFor(a, Call(second), n);
    i := ItemOfCall(mint, [Call(first), Call(second)], v, optimize, n);
  }

  // ---------------------------------------------------------------- with the arguments as they are changed

  function AsOptimizer(parse: string -> ToolArguments.Json, dump: ToolArguments.Dict -> string): Optimizer {
    (tool: string, text: string) => ToolArguments.FinalArguments(parse, dump, tool, text)
  }

  /** What a call was closed with, as a dict. */
  function ClosedWith(pieces: seq<Piece>, parse: string -> ToolArguments.Json, n: int): ToolArguments.Dict {
    match parse(FinalIn(pieces, n).1)
    case Entries(args) => ToolArguments.Rename(args, |args|)
    case _ => map[]
  }

  /** A bash command in a completed response has a timeout of a minute at most, and an `ls` at its
      start has lost the word `-R`. Without a command all is as it was said. */
  lemma BashItem(mint: Mint, pieces: seq<Piece>, v: View, parse: string -> ToolArguments.Json,
                 dump: ToolArguments.Dict -> string, n: int)
    returns (i: nat, after: ToolArguments.Dict)
    requires Faithful(mint, pieces, v) && ItemsTell(v, AsOptimizer(parse, dump)) && NamedIn(pieces, n)
    requires FinalIn(pieces, n).0 == "bash" && parse(FinalIn(pieces, n).1).Entries?
    ensures i < |v.items| && v.items[i].source == Tool(n) && v.items[i].text == dump(after)
    ensures var d := ClosedWith(pieces, parse, n);
            if ToolArguments.Get(d, "command").Null? then after == d else ToolArguments.Tamed(d, after)
  {
    var d := ClosedWith(pieces, parse, n);
    i := ItemOfCall(mint, pieces, v, AsOptimizer(parse, dump), n);
    after := ToolArguments.Optimized("bash", d).value;
    if !ToolArguments.Get(d, "command").Null? {
      ToolArguments.OptimizedMeaning("bash", d);
    }
  }

  /** A call that is closed in the middle of its arguments is done with none at all. */
  lemma BrokenItem(mint: Mint, first: ToolDelta, p: Piece, second: ToolDelta, n: int, v: View,
                   parse: string -> ToolArguments.Json, dump: ToolArguments.Dict -> string)
    returns (i: nat)
    requires first.index == Some(n) && second.index == Some(n) && first.name != "" && parse(first.args).Malformed?
    requires p.Answer? || p.Finish?
    requires Faithful(mint, [Call(first), p, Call(second)], v) && ItemsTell(v, AsOptimizer(parse, dump))
    ensures i < |v.items| && v.items[i].source == Tool(n) && v.items[i].text == dump(map[])
    ensures ToolOf(v, n).late == second.args
  {
    i := LateArguments(mint, first, p, second, n, v, AsOptimizer(parse, dump));
  }
}
