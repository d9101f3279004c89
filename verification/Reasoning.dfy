/** The streaming reasoning parser while it waits for the start marker. */
module Reasoning {
  import opened Prelude
  import opened Text

  /** Text before the marker is shown unless it is blank or looks like a control token. */
  predicate Shown(before: string) {
    LeftStrip(before) != "" && !(['<', '|'] <= LeftStrip(before))
  }

  const HEADER := "**[Reasoning]**\n\n"

  predicate EndsWith(s: string, tail: string) {
    |tail| <= |s| && s[|s| - |tail|..] == tail
  }

  /** The text may be the start of the marker. */
  predicate Partial(buffer: string, marker: string) {
    exists i :: 1 <= i <= |marker| && i <= |buffer| && EndsWith(buffer, marker[..i])
  }

  /** What has not been shown while waiting, from all text so far. */
  ghost predicate Waits(input: string, emitted: string, buffer: string, marker: string) {
    && emitted + buffer == input
    && !Occurs(input, marker)
    && (emitted != "" ==> |buffer| >= |marker|)
  }

  lemma AtSuffix(a: string, b: string, pat: string, i: int)
    requires 0 <= i
    ensures At(b, pat, i) <==> At(a + b, pat, |a| + i)
  {
    if i + |pat| <= |b| {
      assert (a + b)[|a| + i..|a| + i + |pat|] == b[i..i + |pat|];
    }
  }

  /** A marker that was not there before a token is found in the buffer, at its place. */
  lemma FoundInBuffer(input: string, emitted: string, buffer: string, marker: string, token: string)
    requires Waits(input, emitted, buffer, marker) && marker != ""
    ensures IndexOf(buffer + token, marker).Some? <==> IndexOf(input + token, marker).Some?
    ensures IndexOf(buffer + token, marker).Some? ==>
              IndexOf(input + token, marker).value == |emitted| + IndexOf(buffer + token, marker).value
  {
    var all, held := input + token, buffer + token;
    assert all == emitted + held;
    forall i | 0 <= i <= |all| && At(all, marker, i) ensures i >= |emitted| && At(held, marker, i - |emitted|) {
      EarlyEnds(input, emitted, buffer, marker, token, i);
      AtSuffix(emitted, held, marker, i - |emitted|);
    }
    if IndexOf(held, marker).Some? {
      var k := IndexOf(held, marker).value;
      AtSuffix(emitted, held, marker, k);
      assert Occurs(all, marker);
      var j := IndexOf(all, marker).value;
      assert j <= |emitted| + k;
    }
    if IndexOf(all, marker).Some? {
      var j := IndexOf(all, marker).value;
      assert Occurs(held, marker);
    }
  }

  lemma StillWaits(input: string, emitted: string, buffer: string, marker: string, token: string)
    requires Waits(input, emitted, buffer, marker)
    ensures emitted + (buffer + token) == input + token
    ensures !Occurs(input + token, marker) ==> Waits(input + token, emitted, buffer + token, marker)
  {
  }

  /** An occurrence cannot begin in what was emitted: it would have ended before the token. */
  lemma EarlyEnds(input: string, emitted: string, buffer: string, marker: string, token: string, i: nat)
    requires Waits(input, emitted, buffer, marker) && At(input + token, marker, i)
    ensures i >= |emitted|
  {
    if i < |emitted| {
      AtPrefix(input, token, marker, i);
      assert Occurs(input, marker);
    }
  }

  class StreamingReasoningParser {
    const marker: string
    const hideReasoning: bool
    var waiting: bool
    var buffer: string

    /** All text so far, and all that was shown of it. */
    ghost var input: string
    ghost var emitted: string

    ghost predicate Valid()
      reads this
    {
      marker != "" && (waiting ==> Waits(input, emitted, buffer, marker))
    }

    constructor (marker: string, hideReasoning: bool)
      requires marker != ""
      ensures Valid() && waiting && input == "" && this.marker == marker && this.hideReasoning == hideReasoning
    {
      this.marker, this.hideReasoning := marker, hideReasoning;
      waiting, buffer, input, emitted := true, "", "", "";
    }

    /** Whether the buffer ends in the start of the marker. */
    method MightStart() returns (partial: bool)
      ensures partial == Partial(buffer, marker)
    {
      partial := false;
      var i := 1;
      while i <= |marker| && i <= |buffer|
        invariant 1 <= i
        invariant forall j :: 1 <= j < i && j <= |marker| && j <= |buffer| ==> !EndsWith(buffer, marker[..j])
      {
        if EndsWith(buffer, marker[..i]) {
          return true;
        }
        i := i + 1;
      }
    }

    /** One token while waiting. What is shown is returned, the reasoning that may follow
        the marker in the same token is left in the buffer. */
    method ProcessToken(token: string) returns (shown: seq<string>)
      requires Valid() && waiting
      modifies this
      ensures Valid() && input == old(input) + token
      ensures waiting <==> !Occurs(input, marker)
      ensures waiting ==> shown == [] || (|shown| == 1 && shown[0] != "")
      ensures waiting ==> emitted == old(emitted) + Concat(shown)
      ensures waiting && Partial(buffer, marker) ==> shown == []
      ensures waiting && !Partial(buffer, marker) ==> |buffer| <= |marker|
      ensures !waiting ==>
                var first := IndexOf(input, marker).value;
                && |old(emitted)| <= first
                && buffer == input[first + |marker|..]
                && old(emitted) == input[..|old(emitted)|]
                && shown == (if Shown(input[|old(emitted)|..first]) then [input[|old(emitted)|..first]] else [])
                            + (if hideReasoning then [] else [HEADER])
      ensures !waiting ==> ShownInAll(input, marker, hideReasoning, old(emitted), old(emitted) + Concat(shown))
    {
      FoundInBuffer(input, emitted, buffer, marker, token);
      StillWaits(input, emitted, buffer, marker, token);
      buffer, input := buffer + token, input + token;
      if IndexOf(buffer, marker).Some? {
        shown := Leave();
        LastShown(input, marker, hideReasoning, emitted, shown);
      } else {
        shown := Release();
      }
    }

    /** The marker is there: what stands before it is shown, what follows it is kept. */
    method Leave() returns (shown: seq<string>)
      requires waiting && marker != "" && emitted + buffer == input
      requires IndexOf(buffer, marker).Some? && IndexOf(input, marker).Some?
      requires IndexOf(input, marker).value == |emitted| + IndexOf(buffer, marker).value
      modifies `buffer, `waiting
      ensures !waiting
      ensures var first := IndexOf(input, marker).value;
              && buffer == input[first + |marker|..]
              && emitted == input[..|emitted|]
              && shown == (if Shown(input[|emitted|..first]) then [input[|emitted|..first]] else [])
                          + (if hideReasoning then [] else [HEADER])
    {
      shown := [];
      var at := IndexOf(buffer, marker).value;
      var before := buffer[..at];
      FoundAt(input, emitted, buffer, at, |marker|);
      if Shown(before) {
        shown := [before];
      }
      if !hideReasoning {
        shown := shown + [HEADER];
      }
      buffer := buffer[at + |marker|..];
      waiting := false;
    }

    /** Shows all but the last characters, unless they may be the start of the marker. */
    method Release() returns (shown: seq<string>)
      requires Valid() && waiting
      modifies `buffer, `emitted
      ensures Valid()
      ensures shown == [] || (|shown| == 1 && shown[0] != "")
      ensures emitted == old(emitted) + Concat(shown)
      ensures if Partial(buffer, marker) then shown == [] else |buffer| <= |marker|
    {
      shown := [];
      var partial := MightStart();
      if !partial && |buffer| > |marker| {
        var n := |buffer| - |marker|;
        var ready := buffer[..n];
        PartialKept(ready, buffer[n..], marker);
        assert ready + buffer[n..] == buffer;
        Assoc(emitted, ready, buffer[n..]);
        shown := [ready];
        buffer := buffer[n..];
        emitted := emitted + ready;
      }
    }

    /** At the end of the stream the rest is shown, unless it is blank. */
    method Finalize() returns (shown: seq<string>)
      requires Valid()
      ensures shown == if LeftStrip(buffer) != "" then [buffer] else []
      ensures waiting ==> (emitted + Concat(shown) == input <==> buffer == "" || LeftStrip(buffer) != "")
    {
      shown := if LeftStrip(buffer) != "" then [buffer] else [];
    }
  }

  /** The part of the buffer before a place is a part of the input. */
  lemma FoundAt(input: string, emitted: string, buffer: string, at: nat, length: nat)
    requires emitted + buffer == input && at + length <= |buffer|
    ensures input[..|emitted|] == emitted && input[|emitted|..|emitted| + at] == buffer[..at]
    ensures input[|emitted| + at + length..] == buffer[at + length..]
  {
  }

  /** Dropping text at the front does not bring a partial marker about. */
  lemma PartialKept(ready: string, rest: string, marker: string)
    requires |rest| >= |marker|
    ensures Partial(ready + rest, marker) <==> Partial(rest, marker)
  {
    forall i | 1 <= i <= |marker| ensures EndsWith(ready + rest, marker[..i]) <==> EndsWith(rest, marker[..i]) {
      assert (ready + rest)[|ready| + |rest| - i..] == rest[|rest| - i..];
    }
  }

  /** The number of tokens after which a text is first seen, all of them without it. */
  ghost predicate FirstSeen(tokens: seq<string>, marker: string, k: nat) {
    && k <= |tokens| && Occurs(Concat(tokens[..k]), marker)
    && forall j :: 0 <= j < k ==> !Occurs(Concat(tokens[..j]), marker)
  }

  /** The input is the first tokens, and the marker is in them exactly once the parser stops. */
  ghost predicate SoFar(tokens: seq<string>, marker: string, used: nat, waiting: bool, input: string) {
    && used <= |tokens| && input == Concat(tokens[..used])
    && if waiting then forall j :: 0 <= j <= used ==> !Occurs(Concat(tokens[..j]), marker)
       else FirstSeen(tokens, marker, used)
  }

  lemma SoFarNext(tokens: seq<string>, marker: string, used: nat, input: string, waiting: bool)
    requires used < |tokens| && SoFar(tokens, marker, used, true, input)
    requires waiting <==> !Occurs(input + tokens[used], marker)
    ensures SoFar(tokens, marker, used + 1, waiting, input + tokens[used])
  {
    ConcatNext(tokens, used);
  }

  /** What was shown and what is held with the token that completes the first marker. */
  predicate LeftWith(input: string, marker: string, hideReasoning: bool, buffer: string, early: string, all: string) {
    && ShownInAll(input, marker, hideReasoning, early, all)
    && buffer == input[IndexOf(input, marker).value + |marker|..]
  }

  /** However text is cut into tokens: the parser stops waiting with the very token that
      completes the first marker, and what it holds then is the text behind that marker. Until
      then nothing is lost: what was shown and what it holds is the input. `early` is what was
      shown before that token. */
  method ReadTokens(tokens: seq<string>, marker: string, hideReasoning: bool)
    returns (used: nat, left: bool, buffer: string, shown: seq<string>, ghost early: string)
    requires marker != ""
    ensures left <==> Occurs(Concat(tokens), marker)
    ensures !left ==> used == |tokens|
    ensures left ==> FirstSeen(tokens, marker, used)
    ensures left ==> IndexOf(Concat(tokens[..used]), marker) == IndexOf(Concat(tokens), marker)
    ensures left ==> LeftWith(Concat(tokens[..used]), marker, hideReasoning, buffer, early, Concat(shown))
    ensures !left ==> Concat(shown) + buffer == Concat(tokens)
  {
    var parser := new StreamingReasoningParser(marker, hideReasoning);
    used, shown, early := 0, [], "";
    while used < |tokens| && parser.waiting
      invariant fresh(parser) && parser.Valid() && parser.marker == marker && parser.hideReasoning == hideReasoning
      invariant SoFar(tokens, marker, used, parser.waiting, parser.input)
      invariant parser.waiting ==> parser.emitted == Concat(shown)
      invariant !parser.waiting ==> LeftWith(parser.input, marker, hideReasoning, parser.buffer, early, Concat(shown))
    {
      ghost var input := parser.input;
      early := Concat(shown);
      var more := parser.ProcessToken(tokens[used]);
      SoFarNext(tokens, marker, used, input, parser.waiting);
      ConcatAppend(shown, more);
      shown := shown + more;
      used := used + 1;
    }
    left, buffer := !parser.waiting, parser.buffer;
    InTheEnd(tokens, marker, used, parser.waiting, parser.input);
  }

  lemma InTheEnd(tokens: seq<string>, marker: string, used: nat, waiting: bool, input: string)
    requires SoFar(tokens, marker, used, waiting, input) && (used < |tokens| ==> !waiting)
    ensures waiting <==> !Occurs(Concat(tokens), marker)
    ensures if waiting then used == |tokens| && input == Concat(tokens)
            else FirstSeen(tokens, marker, used) && IndexOf(input, marker) == IndexOf(Concat(tokens), marker)
  {
    if waiting {
      assert tokens[..used] == tokens;
    } else {
      SeenInAll(tokens, used, marker);
    }
  }

  /** All that was shown of a text that ends with the token that completes its first marker. */
  predicate ShownInAll(seen: string, marker: string, hideReasoning: bool, early: string, all: string) {
    && IndexOf(seen, marker).Some?
    && var first := IndexOf(seen, marker).value;
       && |early| <= first && early == seen[..|early|]
       && all == early + ((if Shown(seen[|early|..first]) then seen[|early|..first] else "")
                          + (if hideReasoning then "" else HEADER))
  }

  lemma LastShown(seen: string, marker: string, hideReasoning: bool, early: string, more: seq<string>)
    requires IndexOf(seen, marker).Some? && |early| <= IndexOf(seen, marker).value && early == seen[..|early|]
    requires var before := seen[|early|..IndexOf(seen, marker).value];
             more == (if Shown(before) then [before] else []) + (if hideReasoning then [] else [HEADER])
    ensures ShownInAll(seen, marker, hideReasoning, early, early + Concat(more))
  {
    var before := seen[|early|..IndexOf(seen, marker).value];
    var a := if Shown(before) then [before] else [];
    var b := if hideReasoning then [] else [HEADER];
    ConcatAppend(a, b);
    assert [before][1..] == [] && [HEADER][1..] == [];
    assert Concat([before]) == before + "" == before;
    assert Concat([HEADER]) == HEADER + "" == HEADER;
  }

  lemma SeenInAll(tokens: seq<string>, k: nat, marker: string)
    requires k <= |tokens| && Occurs(Concat(tokens[..k]), marker)
    ensures Occurs(Concat(tokens), marker) && IndexOf(Concat(tokens), marker) == IndexOf(Concat(tokens[..k]), marker)
  {
    var seen, more := tokens[..k], tokens[k..];
    assert tokens == seen + more;
    SeenInMore(seen, more, marker);
  }

  lemma SeenInMore(seen: seq<string>, more: seq<string>, marker: string)
    requires Occurs(Concat(seen), marker)
    ensures Occurs(Concat(seen + more), marker)
    ensures IndexOf(Concat(seen + more), marker) == IndexOf(Concat(seen), marker)
  {
    ConcatAppend(seen, more);
    IndexOfLonger(Concat(seen), Concat(more), marker);
  }
}
