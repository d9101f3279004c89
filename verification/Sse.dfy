/** Reading server-sent events from text that arrives in pieces. */
module Sse {
  import opened Prelude
  import opened Text

  const BLANK_LINE := ['\n', '\n']

  // ---------------------------------------------------------------- blocks

  /** The blocks that are complete, each with its blank line. */
  function Blocks(s: string): seq<string>
    decreases |s|
  {
    match IndexOf(s, BLANK_LINE)
    case None => []
    case Some(end) => [s[..end + 2]] + Blocks(s[end + 2..])
  }

  /** What waits for the next piece. */
  function Leftover(s: string): string
    decreases |s|
  {
    match IndexOf(s, BLANK_LINE)
    case None => s
    case Some(end) => Leftover(s[end + 2..])
  }

  /** A block is text up to its first blank line. */
  predicate IsBlock(b: string) {
    |b| >= 2 && IndexOf(b, BLANK_LINE) == Some(|b| - 2)
  }

  lemma FirstBlock(s: string, end: nat)
    requires IndexOf(s, BLANK_LINE) == Some(end)
    ensures IsBlock(s[..end + 2])
  {
    var block, rest := s[..end + 2], s[end + 2..];
    assert s == block + rest;
    AtPrefix(block, rest, BLANK_LINE, end);
    assert Occurs(block, BLANK_LINE);
    IndexOfLonger(block, rest, BLANK_LINE);
  }

  lemma CutFirst(s: string) returns (block: string, rest: string)
    requires IndexOf(s, BLANK_LINE).Some?
    ensures s == block + rest && |rest| < |s| && IsBlock(block)
    ensures Blocks(s) == [block] + Blocks(rest) && Leftover(s) == Leftover(rest)
    ensures block == s[..IndexOf(s, BLANK_LINE).value + 2] && rest == s[IndexOf(s, BLANK_LINE).value + 2..]
  {
    var end := IndexOf(s, BLANK_LINE).value;
    FirstBlock(s, end);
    block, rest := s[..end + 2], s[end + 2..];
  }

  lemma ConcatFirst(block: string, blocks: seq<string>, rest: string)
    ensures Concat([block] + blocks) + rest == block + (Concat(blocks) + rest)
  {
    assert ([block] + blocks)[1..] == blocks;
  }

  predicate AllBlocks(blocks: seq<string>) {
    forall i :: 0 <= i < |blocks| ==> IsBlock(blocks[i])
  }

  /** Nothing is lost or added, every block ends at its first blank line, and what is left
      holds none. */
  lemma {:induction false} BlocksMeaning(s: string)
    ensures Concat(Blocks(s)) + Leftover(s) == s
    ensures AllBlocks(Blocks(s))
    ensures !Occurs(Leftover(s), BLANK_LINE)
    decreases |s|
  {
    if IndexOf(s, BLANK_LINE).Some? {
      var block, rest := CutFirst(s);
      BlocksMeaning(rest);
      ConcatFirst(block, Blocks(rest), Leftover(rest));
    }
  }

  /** That determines the blocks: text is cut in one way only. */
  lemma {:induction false} BlocksUnique(s: string, blocks: seq<string>, rest: string)
    requires Concat(blocks) + rest == s && !Occurs(rest, BLANK_LINE)
    requires AllBlocks(blocks)
    ensures blocks == Blocks(s) && rest == Leftover(s)
    decreases |blocks|
  {
    if blocks == [] {
      assert s == rest;
    } else {
      var block, more := blocks[0], Concat(blocks[1..]) + rest;
      assert s == block + more;
      BlockFirst(block, more);
      BlocksUnique(more, blocks[1..], rest);
    }
  }

  lemma BlockFirst(block: string, rest: string)
    requires IsBlock(block)
    ensures Blocks(block + rest) == [block] + Blocks(rest) && Leftover(block + rest) == Leftover(rest)
  {
    var s := block + rest;
    IndexOfLonger(block, rest, BLANK_LINE);
    assert s[..|block|] == block && s[|block|..] == rest;
  }

  /** More text only adds blocks, made from what was left and the new text. */
  lemma MoreText(s: string, t: string)
    ensures Blocks(s + t) == Blocks(s) + Blocks(Leftover(s) + t)
    ensures Leftover(s + t) == Leftover(Leftover(s) + t)
  {
    var more := Leftover(s) + t;
    BlocksMeaning(s);
    BlocksMeaning(more);
    TwoCuts(Blocks(s), Leftover(s), t, Blocks(more), Leftover(more));
  }

  lemma TwoCuts(a: seq<string>, left: string, t: string, b: seq<string>, rest: string)
    requires AllBlocks(a) && AllBlocks(b) && Concat(b) + rest == left + t && !Occurs(rest, BLANK_LINE)
    ensures Blocks((Concat(a) + left) + t) == a + b && Leftover((Concat(a) + left) + t) == rest
  {
    ConcatAppend(a, b);
    AppendBlocks(a, b);
    var all := (Concat(a) + left) + t;
    Assoc(Concat(a), left, t);
    Assoc(Concat(a), Concat(b), rest);
    BlocksUnique(all, a + b, rest);
  }

  lemma AppendBlocks(a: seq<string>, b: seq<string>)
    requires AllBlocks(a) && AllBlocks(b)
    ensures AllBlocks(a + b)
  {
  }

  // ---------------------------------------------------------------- events

  function FirstLine(s: string): string {
    var n := LineLength(s);
    if n > 0 && n < |s| && s[n - 1] == '\r' then s[..n - 1] else s[..n]
  }

  function AfterLine(s: string): (rest: string)
    ensures s != "" ==> |rest| < |s|
  {
    var n := LineLength(s);
    if n < |s| then s[n + 1..] else ""
  }

  /** `lines()`: without line ends, and without an empty last line. */
  function Lines(s: string): seq<string>
    decreases |s|
  {
    if s == "" then [] else [FirstLine(s)] + Lines(AfterLine(s))
  }

  function Terminated(lines: seq<string>): string {
    if lines == [] then "" else lines[0] + "\n" + Terminated(lines[1..])
  }

  lemma LineParts(line: string, rest: string)
    requires '\n' !in line && '\r' !in line
    ensures FirstLine(line + ("\n" + rest)) == line && AfterLine(line + ("\n" + rest)) == rest
  {
    var s := line + ("\n" + rest);
    LineLengthIs(line, "\n" + rest);
    assert s[..|line|] == line && s[|line| + 1..] == rest;
    assert line != "" ==> s[|line| - 1] in line;
  }

  /** A text that ends its last line is its lines, each with a line feed. */
  lemma {:induction false} LinesExactly(lines: seq<string>)
    requires forall i :: 0 <= i < |lines| ==> '\n' !in lines[i] && '\r' !in lines[i]
    ensures Lines(Terminated(lines)) == lines
  {
    if lines != [] {
      LinesExactly(lines[1..]);
      Assoc(lines[0], "\n", Terminated(lines[1..]));
      LineParts(lines[0], Terminated(lines[1..]));
    }
  }

  /** The last of the first `n` lines that starts with a prefix, -1 without one. */
  function LastWith(lines: seq<string>, field: string, n: nat): (i: int)
    requires n <= |lines|
    ensures -1 <= i < n && (i >= 0 ==> field <= lines[i])
    ensures forall j :: i < j < n ==> !(field <= lines[j])
  {
    if n == 0 then -1 else if field <= lines[n - 1] then n - 1 else LastWith(lines, field, n - 1)
  }

  /** What follows a prefix in the last line that has it. */
  function FieldIn(lines: seq<string>, field: string, n: nat): Option<string>
    requires n <= |lines|
  {
    var i := LastWith(lines, field, n);
    if i < 0 then None else Some(Trim(lines[i][|field|..]))
  }

  function LastField(lines: seq<string>, field: string): Option<string> {
    FieldIn(lines, field, |lines|)
  }

  lemma FieldMore(lines: seq<string>, field: string, n: nat)
    requires n < |lines|
    ensures FieldIn(lines, field, n + 1)
         == if field <= lines[n] then Some(Trim(lines[n][|field|..])) else FieldIn(lines, field, n)
  {
  }

  const EVENT := "event:"
  const DATA := "data:"

  /** An event needs a name, and data that parses. */
  function EventOf<V>(block: string, json: string -> Option<V>): Option<(string, V)> {
    var name, data := LastField(Lines(block), EVENT), LastField(Lines(block), DATA);
    if name.Some? && data.Some? && json(data.value).Some? then Some((name.value, json(data.value).value)) else None
  }

  function EventsOf<V>(blocks: seq<string>, json: string -> Option<V>): seq<(string, V)> {
    if blocks == [] then []
    else
      var rest := EventsOf(blocks[1..], json);
      match EventOf(blocks[0], json)
      case Some(e) => [e] + rest
      case None => rest
  }

  lemma {:induction false} EventsMore<V>(a: seq<string>, b: seq<string>, json: string -> Option<V>)
    ensures EventsOf(a + b, json) == EventsOf(a, json) + EventsOf(b, json)
  {
    if a == [] {
      assert a + b == b;
    } else {
      assert (a + b)[1..] == a[1..] + b;
      EventsMore(a[1..], b, json);
    }
  }

  lemma EventsCons<V>(block: string, blocks: seq<string>, json: string -> Option<V>)
    ensures EventsOf([block] + blocks, json)
         == (if EventOf(block, json).Some? then [EventOf(block, json).value] else []) + EventsOf(blocks, json)
  {
    assert ([block] + blocks)[1..] == blocks;
  }

  lemma TakeFirst<V>(taken: seq<(string, V)>, s: string, block: string, rest: string, json: string -> Option<V>)
    requires Blocks(s) == [block] + Blocks(rest)
    ensures taken + EventsOf(Blocks(s), json)
         == (if EventOf(block, json).Some? then taken + [EventOf(block, json).value] else taken)
            + EventsOf(Blocks(rest), json)
  {
    EventsCons(block, Blocks(rest), json);
  }

  /** What a stream has given after one more piece. */
  lemma OneMore<V>(received: string, chunk: string, json: string -> Option<V>)
    ensures EventsOf(Blocks(received + chunk), json)
         == EventsOf(Blocks(received), json) + EventsOf(Blocks(Leftover(received) + chunk), json)
    ensures Leftover(received + chunk) == Leftover(Leftover(received) + chunk)
  {
    MoreText(received, chunk);
    EventsMore(Blocks(received), Blocks(Leftover(received) + chunk), json);
  }

  /** A line sets the name, or the data, or neither. */
  lemma LineSets<V>(lines: seq<string>, i: nat, json: string -> Option<V>)
    requires i < |lines|
    ensures FieldIn(lines, EVENT, i + 1)
         == if EVENT <= lines[i] then Some(Trim(lines[i][|EVENT|..])) else FieldIn(lines, EVENT, i)
    ensures Parsed(FieldIn(lines, DATA, i + 1), json)
         == if !(EVENT <= lines[i]) && DATA <= lines[i] then json(Trim(lines[i][|DATA|..]))
            else Parsed(FieldIn(lines, DATA, i), json)
  {
    assert EVENT[0] != DATA[0];
    FieldMore(lines, EVENT, i);
    FieldMore(lines, DATA, i);
  }

  method ReadFields<V>(lines: seq<string>, json: string -> Option<V>) returns (name: Option<string>, data: Option<V>)
    ensures name == LastField(lines, EVENT)
    ensures data == Parsed(LastField(lines, DATA), json)
  {
    name, data := None, None;
    var i := 0;
    while i < |lines|
      invariant 0 <= i <= |lines|
      invariant name == FieldIn(lines, EVENT, i)
      invariant data == Parsed(FieldIn(lines, DATA, i), json)
    {
      var line := lines[i];
      LineSets(lines, i, json);
      if EVENT <= line {
        name := Some(Trim(line[|EVENT|..]));
      } else if DATA <= line {
        data := json(Trim(line[|DATA|..]));
      }
      i := i + 1;
    }
  }

  method SseEvent<V>(block: string, json: string -> Option<V>) returns (r: Option<(string, V)>)
    ensures r == EventOf(block, json)
  {
    var name, data := ReadFields(Lines(block), json);
    r := if name.Some? && data.Some? then Some((name.value, data.value)) else None;
  }

  function Parsed<V>(data: Option<string>, json: string -> Option<V>): Option<V> {
    if data.Some? then json(data.value) else None
  }

  // ---------------------------------------------------------------- what was written

  /** What the daemon writes: an event, or a comment that keeps the connection alive. */
  datatype Sent = KeepAlive | Event(name: string, data: string)

  function Written(e: Sent): string {
    match e
    case KeepAlive => ":\n\n"
    case Event(name, data) => Line(EVENT, name) + "\n" + Line(DATA, data) + "\n\n"
  }

  function Line(field: string, value: string): string {
    field + (" " + value)
  }

  function WrittenAll(sent: seq<Sent>): string {
    if sent == [] then "" else Written(sent[0]) + WrittenAll(sent[1..])
  }

  predicate OneLine(s: string) {
    '\n' !in s && '\r' !in s && Trimmed(s)
  }

  predicate Writable(e: Sent) {
    e.Event? ==> OneLine(e.name) && OneLine(e.data)
  }

  /** The events among them whose data parses. */
  function Meant<V>(sent: seq<Sent>, json: string -> Option<V>): seq<(string, V)> {
    if sent == [] then []
    else
      (if sent[0].Event? && json(sent[0].data).Some? then [(sent[0].name, json(sent[0].data).value)] else [])
      + Meant(sent[1..], json)
  }

  lemma WrittenText(name: string, data: string)
    ensures Written(Event(name, data)) == "event: " + name + "\n" + "data: " + data + "\n\n"
  {
    assert Line(EVENT, name) == "event: " + name && Line(DATA, data) == "data: " + data;
    Assoc("event: " + name + "\n", "data: " + data, "\n\n");
    Assoc("event: " + name + "\n", "data: ", data);
  }

  lemma BehindSpace(s: string)
    requires Trimmed(s)
    ensures Trim(" " + s) == s
  {
    assert (" " + s)[1..] == s;
  }

  lemma ThreeLines(a: string, b: string)
    ensures Terminated([a, b, ""]) == a + "\n" + (b + "\n" + "\n")
  {
    assert [a, b, ""][1..] == [b, ""] && [b, ""][1..] == [""] && [""][1..] == [];
    assert Terminated([""]) == "\n";
    assert Terminated([b, ""]) == b + "\n" + "\n";
  }

  lemma EventLines(name: string, data: string)
    requires OneLine(name) && OneLine(data)
    ensures Lines(Written(Event(name, data))) == [Line(EVENT, name), Line(DATA, data), ""]
  {
    var a, b := Line(EVENT, name), Line(DATA, data);
    ThreeLines(a, b);
    assert Written(Event(name, data)) == a + "\n" + (b + "\n" + "\n");
    LinesExactly([a, b, ""]);
  }

  lemma LineRead(field: string, value: string)
    requires Trimmed(value)
    ensures field <= Line(field, value) && Trim(Line(field, value)[|field|..]) == value
  {
    BehindSpace(value);
    assert Line(field, value)[|field|..] == " " + value;
  }

  lemma OtherField(value: string)
    ensures !(EVENT <= Line(DATA, value))
  {
    assert Line(DATA, value)[0] == DATA[0];
  }

  lemma FieldAt(lines: seq<string>, field: string, n: nat, i: nat)
    requires i < n <= |lines| && field <= lines[i] && forall j :: i < j < n ==> !(field <= lines[j])
    ensures FieldIn(lines, field, n) == Some(Trim(lines[i][|field|..]))
  {
  }

  lemma EventRead<V>(name: string, data: string, json: string -> Option<V>)
    requires OneLine(name) && OneLine(data)
    ensures EventOf(Written(Event(name, data)), json)
         == if json(data).Some? then Some((name, json(data).value)) else None
  {
    EventLines(name, data);
    LineRead(EVENT, name);
    LineRead(DATA, data);
    OtherField(data);
    var lines := [Line(EVENT, name), Line(DATA, data), ""];
    FieldAt(lines, EVENT, 3, 0);
    FieldAt(lines, DATA, 3, 1);
  }

  lemma AtTwo(s: string, i: nat)
    requires i + 2 <= |s|
    ensures At(s, BLANK_LINE, i) <==> s[i] == '\n' && s[i + 1] == '\n'
  {
    assert s[i..i + 2] == [s[i], s[i + 1]];
  }

  lemma TwoLinesBlock(a: string, b: string)
    requires '\n' !in a && '\n' !in b && b != ""
    ensures IsBlock(a + "\n" + b + "\n\n")
  {
    var s := a + "\n" + b + "\n\n";
    AtTwo(s, |s| - 2);
    forall i | 0 <= i < |s| - 2 ensures !At(s, BLANK_LINE, i) {
      AtTwo(s, i);
      if i < |a| {
        assert s[i] == a[i];
      } else if i == |a| {
        assert s[i + 1] == b[0];
      } else {
        assert s[i] == b[i - |a| - 1];
      }
    }
  }

  lemma EventBlock(name: string, data: string)
    requires OneLine(name) && OneLine(data)
    ensures IsBlock(Written(Event(name, data)))
  {
    TwoLinesBlock(Line(EVENT, name), Line(DATA, data));
  }

  lemma KeepAliveRead<V>(json: string -> Option<V>)
    ensures IsBlock(Written(KeepAlive)) && EventOf(Written(KeepAlive), json) == None
  {
    var s := Written(KeepAlive);
    assert s[0..2] == [s[0], s[1]] && At(s, BLANK_LINE, 1) && !At(s, BLANK_LINE, 0);
    var lines := [":", ""];
    assert lines[1..] == [""] && [""][1..] == [];
    assert Terminated([""]) == "\n";
    assert Terminated(lines) == s;
    LinesExactly(lines);
    assert LastWith(lines, EVENT, 2) == -1;
  }

  /** Whatever was written is read: the events whose data parses, in order, and nothing is left. */
  lemma {:induction false} WrittenRead<V>(sent: seq<Sent>, json: string -> Option<V>)
    requires forall i :: 0 <= i < |sent| ==> Writable(sent[i])
    ensures EventsOf(Blocks(WrittenAll(sent)), json) == Meant(sent, json)
    ensures Leftover(WrittenAll(sent)) == ""
  {
    if sent != [] {
      var block, rest := Written(sent[0]), WrittenAll(sent[1..]);
      match sent[0] {
        case KeepAlive => KeepAliveRead(json);
        case Event(name, data) =>
          EventBlock(name, data);
          EventRead(name, data, json);
      }
      WrittenRead(sent[1..], json);
      BlockFirst(block, rest);
      EventsCons(block, Blocks(rest), json);
    }
  }

  class Reader<V> {
    var pending: string

    constructor ()
      ensures pending == ""
    {
      pending := "";
    }

    /** Takes the events of all complete blocks out of the pending text. */
    method TakeEvents(json: string -> Option<V>) returns (events: seq<(string, V)>)
      modifies this
      ensures events == EventsOf(Blocks(old(pending)), json)
      ensures pending == Leftover(old(pending))
    {
      events := [];
      var end := IndexOf(pending, BLANK_LINE);
      while end.Some?
        invariant end == IndexOf(pending, BLANK_LINE)
        invariant EventsOf(Blocks(old(pending)), json) == events + EventsOf(Blocks(pending), json)
        invariant Leftover(old(pending)) == Leftover(pending)
        decreases |pending|
      {
        ghost var first, rest := CutFirst(pending);
        TakeFirst(events, pending, first, rest, json);
        var block := pending[..end.value + 2];
        pending := pending[end.value + 2..];
        var event := SseEvent(block, json);
        if event.Some? {
          events := events + [event.value];
        }
        end := IndexOf(pending, BLANK_LINE);
      }
    }

    /** A piece arrives, and its events are taken. */
    method Receive(chunk: string, json: string -> Option<V>) returns (events: seq<(string, V)>)
      modifies this
      ensures events == EventsOf(Blocks(old(pending) + chunk), json)
      ensures pending == Leftover(old(pending) + chunk)
    {
      pending := pending + chunk;
      events := TakeEvents(json);
    }
  }

  /** However a stream is cut into pieces, the events are those of the whole, in order, and
      the same text is left. */
  method ReceiveAll<V>(chunks: seq<string>, json: string -> Option<V>) returns (events: seq<(string, V)>, rest: string)
    ensures events == EventsOf(Blocks(Concat(chunks)), json)
    ensures rest == Leftover(Concat(chunks))
  {
    var reader := new Reader<V>();
    events := [];
    ghost var received := "";
    var i := 0;
    while i < |chunks|
      invariant 0 <= i <= |chunks| && fresh(reader)
      invariant received == Concat(chunks[..i])
      invariant events == EventsOf(Blocks(received), json)
      invariant reader.pending == Leftover(received)
    {
      var more := reader.Receive(chunks[i], json);
      OneMore(received, chunks[i], json);
      ConcatNext(chunks, i);
      received := received + chunks[i];
      events := events + more;
      i := i + 1;
    }
    assert chunks[..i] == chunks;
    rest := reader.pending;
  }
}
