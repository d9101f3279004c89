/** What is changed about the arguments of a tool call before they are sent. */
module ToolArguments {
  import opened Prelude
  import opened Text

  /** A JSON value as Python has it. `shown` is what `str` makes of a list or an object. */
  datatype Value = Null | Text(s: string) | Number(r: real) | Truth(b: bool) | Other(shown: string)

  /** An object in the order of its keys. */
  type Object = seq<(string, Value)>

  type Dict = map<string, Value>

  predicate Distinct(args: Object) {
    forall i, j :: 0 <= i < j < |args| ==> args[i].0 != args[j].0
  }

  function Renamed(key: string): string {
    if key == "cmd" then "command" else key
  }

  /** A later entry of the same name takes the place of an earlier one. */
  function Rename(args: Object, n: nat): Dict
    requires n <= |args|
  {
    if n == 0 then map[] else Rename(args, n - 1)[Renamed(args[n - 1].0) := args[n - 1].1]
  }

  // ---------------------------------------------------------------- words

  function WordEnd(s: string): (n: nat)
    ensures n <= |s| && (forall i :: 0 <= i < n ==> !IsBlank(s[i])) && (n < |s| ==> IsBlank(s[n]))
  {
    if s == "" || IsBlank(s[0]) then 0 else 1 + WordEnd(s[1..])
  }

  /** `split()` */
  function Words(s: string): seq<string>
    decreases |s|
  {
    var t := LeftStrip(s);
    if t == "" then [] else [t[..WordEnd(t)]] + Words(t[WordEnd(t)..])
  }

  predicate IsWord(w: string) {
    w != "" && forall i :: 0 <= i < |w| ==> !IsBlank(w[i])
  }

  function Spaced(words: seq<string>): string {
    if words == [] then ""
    else if |words| == 1 then words[0]
    else words[0] + " " + Spaced(words[1..])
  }

  predicate AllWords(words: seq<string>) {
    forall i :: 0 <= i < |words| ==> IsWord(words[i])
  }

  lemma {:induction false} WordsAreWords(s: string)
    ensures AllWords(Words(s))
    decreases |s|
  {
    var t := LeftStrip(s);
    if t != "" {
      WordsAreWords(t[WordEnd(t)..]);
    }
  }

  lemma {:induction false} WordEndIs(w: string, rest: string)
    requires (forall i :: 0 <= i < |w| ==> !IsBlank(w[i])) && (rest == "" || IsBlank(rest[0]))
    ensures WordEnd(w + rest) == |w|
  {
    if w == "" {
      assert w + rest == rest;
    } else {
      assert (w + rest)[1..] == w[1..] + rest;
      WordEndIs(w[1..], rest);
    }
  }

  lemma FirstWord(w: string, rest: string)
    requires IsWord(w) && (rest == "" || IsBlank(rest[0]))
    ensures Words(w + rest) == [w] + Words(rest)
  {
    WordEndIs(w, rest);
    assert (w + rest)[0] == w[0];
    assert (w + rest)[..|w|] == w && (w + rest)[|w|..] == rest;
  }

  lemma BlankFirst(s: string)
    ensures Words(" " + s) == Words(s)
  {
    assert (" " + s)[1..] == s;
  }

  lemma OneMoreWord(w: string, s: string)
    requires IsWord(w)
    ensures Words(w + " " + s) == [w] + Words(s)
  {
    Assoc(w, " ", s);
    FirstWord(w, " " + s);
    BlankFirst(s);
  }

  /** Words put together with spaces are split into the same words. */
  lemma {:induction false} WordsBack(words: seq<string>)
    requires AllWords(words)
    ensures Words(Spaced(words)) == words
  {
    if |words| == 1 {
      assert words[0] + "" == words[0];
      FirstWord(words[0], "");
      assert words == [words[0]];
    } else if words != [] {
      WordsBack(words[1..]);
      OneMoreWord(words[0], Spaced(words[1..]));
      assert words == [words[0]] + words[1..];
    }
  }

  function Without(words: seq<string>, w: string, n: nat): (r: seq<string>)
    requires n <= |words|
    ensures forall x :: x in r ==> x in words && x != w
  {
    if n == 0 then []
    else Without(words, w, n - 1) + (if words[n - 1] == w then [] else [words[n - 1]])
  }

  lemma {:induction false} WithoutAgain(words: seq<string>, w: string, n: nat)
    requires n <= |words| && w !in words
    ensures Without(words, w, n) == words[..n]
  {
    if n > 0 {
      WithoutAgain(words, w, n - 1);
    }
  }

  lemma {:induction false} WithoutTaken(words: seq<string>, more: seq<string>, w: string, n: nat)
    requires n <= |words|
    ensures Without(words + more, w, n) == Without(words, w, n)
    decreases n
  {
    if n > 0 {
      WithoutTaken(words, more, w, n - 1);
    }
  }

  lemma WithoutOneMore(words: seq<string>, x: string, w: string)
    ensures Without(words + [x], w, |words| + 1) == Without(words, w, |words|) + (if x == w then [] else [x])
  {
    WithoutTaken(words, [x], w, |words|);
  }

  /** What stays of two series stays of one after the other, */
  lemma {:induction false} WithoutJoins(a: seq<string>, b: seq<string>, w: string)
    ensures Without(a + b, w, |a + b|) == Without(a, w, |a|) + Without(b, w, |b|)
    decreases |b|
  {
    if b == [] {
      assert a + b == a;
    } else {
      var init, last := b[..|b| - 1], b[|b| - 1];
      assert a + b == (a + init) + [last] && b == init + [last];
      WithoutJoins(a, init, w);
      WithoutOneMore(a + init, last, w);
      WithoutOneMore(init, last, w);
    }
  }

  /** and of every other word all occurrences stay. */
  lemma {:induction false} WithoutCounts(words: seq<string>, w: string, x: string)
    ensures multiset(Without(words, w, |words|))[x] == if x == w then 0 else multiset(words)[x]
    decreases |words|
  {
    if words != [] {
      var init, last := words[..|words| - 1], words[|words| - 1];
      assert words == init + [last];
      WithoutCounts(init, w, x);
      WithoutOneMore(init, last, w);
    }
  }

  /** `split(" ")[0]` */
  function UpToSpace(s: string): string {
    if s == "" || s[0] == ' ' then "" else [s[0]] + UpToSpace(s[1..])
  }

  // ---------------------------------------------------------------- the whole change

  const RECURSIVE := "-R"

  predicate IsLs(command: string) {
    Lower(UpToSpace(command)) == "ls"
  }

  function NoRecursion(command: string): string {
    if IsLs(command) then Spaced(Without(Words(command), RECURSIVE, |Words(command)|)) else command
  }

  /** `str` */
  function ToText(v: Value): string {
    match v
    case Text(s) => s
    case Truth(b) => if b then "True" else "False"
    case Other(shown) => shown
    case _ => ""
  }

  /** `min(timeout, 60)`, which raises for what is no number. */
  function Capped(timeout: Value): Option<Value> {
    match timeout
    case Null => Some(Number(60.0))
    case Number(r) => Some(Number(if 60.0 < r then 60.0 else r))
    case Truth(b) => Some(timeout)
    case _ => None
  }

  function Get(d: Dict, key: string): Value {
    if key in d then d[key] else Null
  }

  predicate Touched(tool: string, d: Dict) {
    tool == "bash" && !Get(d, "command").Null?
  }

  /** The command of a listing loses its flag, any other stays as it is. */
  function Sent(v: Value): Value {
    if IsLs(ToText(v)) then Text(NoRecursion(ToText(v))) else v
  }

  /** The arguments that are sent, None when making them raises. */
  function Optimized(tool: string, d: Dict): Option<Dict> {
    if !Touched(tool, d) then Some(d)
    else
      match Capped(Get(d, "timeout"))
      case Some(timeout) => Some(d["command" := Sent(d["command"])]["timeout" := timeout])
      case None => None
  }

  /** The dict is changed in place, as the loop over the words and the assignments go. */
  method OptimizeArguments(tool: string, args: Object) returns (r: Option<Dict>)
    ensures r == Optimized(tool, Rename(args, |args|))
  {
    var newArgs: Dict := map[];
    var i := 0;
    while i < |args|
      invariant 0 <= i <= |args| && newArgs == Rename(args, i)
    {
      newArgs := newArgs[(if args[i].0 == "cmd" then "command" else args[i].0) := args[i].1];
      i := i + 1;
    }
    if tool == "bash" && !Get(newArgs, "command").Null? {
      var timeout := Get(newArgs, "timeout");
      var command := ToText(newArgs["command"]);
      assert newArgs["command" := newArgs["command"]] == newArgs;
      if IsLs(command) {
        var words := Words(command);
        var kept: seq<string> := [];
        var k := 0;
        while k < |words|
          invariant 0 <= k <= |words| && kept == Without(words, RECURSIVE, k)
        {
          if words[k] != RECURSIVE {
            kept := kept + [words[k]];
          }
          k := k + 1;
        }
        newArgs := newArgs["command" := Text(Spaced(kept))];
      }
      match Capped(timeout) {
        case None => return None;
        case Some(capped) => newArgs := newArgs["timeout" := capped];
      }
    }
    r := Some(newArgs);
  }

  /** What `json.loads` makes of a text. */
  datatype Json = Malformed | NotObject | Entries(args: Object)

  /** The arguments a call is done with. Text that is no JSON stands for no arguments, and JSON
      that is no object raises. */
  function FinalArguments(parse: string -> Json, dump: Dict -> string, tool: string, text: string): Option<string> {
    match parse(text)
    case Malformed => Some(dump(map[]))
    case NotObject => None
    case Entries(args) =>
      match Optimized(tool, Rename(args, |args|))
      case Some(d) => Some(dump(d))
      case None => None
  }

  /** The parsing and dumping around it. */
  method FinishArguments(parse: string -> Json, dump: Dict -> string, tool: string, text: string)
    returns (r: Option<string>)
    ensures r == FinalArguments(parse, dump, tool, text)
  {
    var args: Object := [];
    match parse(text) {
      case Malformed =>
      case NotObject => return None;
      case Entries(parsed) => args := parsed;
    }
    var newArgs := OptimizeArguments(tool, args);
    r := if newArgs.Some? then Some(dump(newArgs.value)) else None;
  }

  // ---------------------------------------------------------------- main results

  /** No entry is called `cmd` any more, and one that was is found under `command`. */
  lemma {:induction false} RenameMeaning(args: Object, n: nat)
    requires n <= |args| && Distinct(args)
    ensures "cmd" !in Rename(args, n)
    ensures forall i :: 0 <= i < n && args[i].0 != "cmd" && args[i].0 != "command" ==>
              args[i].0 in Rename(args, n) && Rename(args, n)[args[i].0] == args[i].1
    ensures forall i :: (0 <= i < n && args[i].0 == "cmd" && forall j :: 0 <= j < |args| ==> args[j].0 != "command") ==>
              "command" in Rename(args, n) && Rename(args, n)["command"] == args[i].1
  {
    if n > 0 {
      RenameMeaning(args, n - 1);
    }
  }

  /** The entry at `i` is the last one of the first `n` under its name. */
  ghost predicate LastOne(args: Object, n: nat, i: nat)
    requires n <= |args|
  {
    i < n && forall j :: i < j < n ==> Renamed(args[j].0) != Renamed(args[i].0)
  }

  lemma {:induction false} LastWins(args: Object, n: nat, i: nat)
    requires n <= |args| && LastOne(args, n, i)
    ensures Renamed(args[i].0) in Rename(args, n) && Rename(args, n)[Renamed(args[i].0)] == args[i].1
    decreases n
  {
    if i < n - 1 {
      LastWins(args, n - 1, i);
    }
  }

  lemma {:induction false} CameFrom(args: Object, n: nat, key: string) returns (i: nat)
    requires n <= |args| && key in Rename(args, n)
    ensures LastOne(args, n, i) && Renamed(args[i].0) == key
    decreases n
  {
    if key == Renamed(args[n - 1].0) {
      i := n - 1;
    } else {
      i := CameFrom(args, n - 1, key);
    }
  }

  /** All entries are there under their names, the last one of each, and nothing else. */
  lemma RenameExactly(args: Object)
    ensures forall i: nat :: LastOne(args, |args|, i) ==>
              Renamed(args[i].0) in Rename(args, |args|) && Rename(args, |args|)[Renamed(args[i].0)] == args[i].1
    ensures forall key :: key in Rename(args, |args|) ==>
              exists i: nat :: LastOne(args, |args|, i) && Renamed(args[i].0) == key
  {
    forall i: nat | LastOne(args, |args|, i)
      ensures Renamed(args[i].0) in Rename(args, |args|) && Rename(args, |args|)[Renamed(args[i].0)] == args[i].1
    {
      LastWins(args, |args|, i);
    }
    forall key | key in Rename(args, |args|)
      ensures exists i: nat :: LastOne(args, |args|, i) && Renamed(args[i].0) == key
    {
      var i := CameFrom(args, |args|, key);
      assert LastOne(args, |args|, i);
    }
  }

  /** The arguments of any tool but bash are sent on, with `cmd` called `command`. */
  lemma OthersKept(parse: string -> Json, dump: Dict -> string, tool: string, text: string) returns (d: Dict)
    requires tool != "bash" && parse(text).Entries?
    ensures FinalArguments(parse, dump, tool, text) == Some(dump(d))
    ensures var args := parse(text).args;
            && (forall i: nat :: LastOne(args, |args|, i) ==>
                  Renamed(args[i].0) in d && d[Renamed(args[i].0)] == args[i].1)
            && forall key :: key in d ==> exists i: nat :: LastOne(args, |args|, i) && Renamed(args[i].0) == key
  {
    var args := parse(text).args;
    d := Rename(args, |args|);
    RenameExactly(args);
  }

  /** Making the arguments raises exactly for a bash command with a timeout that is no number. */
  lemma RaisesExactly(tool: string, d: Dict)
    ensures Optimized(tool, d).None? <==> Touched(tool, d) && (Get(d, "timeout").Text? || Get(d, "timeout").Other?)
  {
  }

  lemma SpacedLs(words: seq<string>)
    requires AllWords(words) && words != [] && Lower(words[0]) == "ls"
    ensures IsLs(Spaced(words))
  {
    var w := words[0];
    var s := Spaced(words);
    assert |w| == 2 && !IsBlank(w[0]) && !IsBlank(w[1]);
    assert s[0] == w[0] && s[1] == w[1];
    assert |s| > 2 ==> s[2] == ' ';
    assert UpToSpace(s[2..]) == "";
    assert s[1..][1..] == s[2..];
    assert UpToSpace(s[1..]) == [w[1]];
    assert UpToSpace(s) == [w[0]] + [w[1]] == w;
  }

  lemma LsFirst(command: string)
    requires IsLs(command)
    ensures Words(command) != [] && Lower(Words(command)[0]) == "ls"
  {
    var first := UpToSpace(command);
    assert |first| == 2;
    assert Lower(first)[0] == LowerChar(first[0]) && Lower(first)[1] == LowerChar(first[1]);
    assert command[0] == first[0];
    assert UpToSpace(command[1..]) == first[1..];
    assert command[1..][0] == first[1];
    assert UpToSpace(command[2..]) == "" by {
      assert command[1..][1..] == command[2..];
    }
    assert first == command[..2];
    assert IsWord(first);
    var rest := command[2..];
    FirstWord(first, rest);
    assert command == first + rest;
  }

  /** An `ls` command stays one, without the word that makes it list everything below, and
      doing it again changes nothing. */
  lemma NoRecursionMeaning(command: string)
    requires IsLs(command)
    ensures IsLs(NoRecursion(command)) && RECURSIVE !in Words(NoRecursion(command))
    ensures Words(NoRecursion(command)) == Without(Words(command), RECURSIVE, |Words(command)|)
    ensures NoRecursion(NoRecursion(command)) == NoRecursion(command)
  {
    var words := Words(command);
    var kept := Without(words, RECURSIVE, |words|);
    WordsAreWords(command);
    LsFirst(command);
    FirstKept(words, RECURSIVE, |words|);
    assert AllWords(kept) by {
      forall i | 0 <= i < |kept| ensures IsWord(kept[i]) {
        assert kept[i] in kept;
      }
    }
    WordsBack(kept);
    SpacedLs(kept);
    WithoutAgain(kept, RECURSIVE, |kept|);
    assert kept[..|kept|] == kept;
  }

  lemma {:induction false} FirstKept(words: seq<string>, w: string, n: nat)
    requires 0 < n <= |words| && Lower(words[0]) == "ls" && w == RECURSIVE
    ensures Without(words, w, n) != [] && Without(words, w, n)[0] == words[0]
  {
    if n == 1 {
      assert Lower(words[0])[0] == LowerChar(words[0][0]);
    } else {
      FirstKept(words, w, n - 1);
    }
  }

  lemma SentMeaning(v: Value)
    requires !v.Null?
    ensures Sent(Sent(v)) == Sent(v) && !Sent(v).Null?
    ensures if IsLs(ToText(v)) then
              && Sent(v).Text? && RECURSIVE !in Words(Sent(v).s)
              && Words(Sent(v).s) == Without(Words(ToText(v)), RECURSIVE, |Words(ToText(v))|)
            else Sent(v) == v
  {
    if IsLs(ToText(v)) {
      NoRecursionMeaning(ToText(v));
    }
  }

  lemma CappedMeaning(timeout: Value)
    requires Capped(timeout).Some?
    ensures var t := Capped(timeout).value;
            Capped(t) == Some(t) && AtMostAMinute(timeout, t)
  {
  }

  /** A timeout that was given and is shorter stays, and so does a truth value. */
  predicate AtMostAMinute(given: Value, sent: Value) {
    match given
    case Null => sent == Number(60.0)
    case Number(r) => sent.Number? && sent.r <= 60.0 && sent.r <= r && (sent.r == r || sent.r == 60.0)
    case Truth(_) => sent == given
    case _ => false
  }

  /** A timeout of a minute at most, a command without the word `-R` if it starts with `ls`, and
      all else as it was. */
  predicate Tamed(d: Dict, after: Dict) {
    && after.Keys == d.Keys + {"timeout"}
    && (forall k :: k in d && k != "timeout" && k != "command" ==> after[k] == d[k])
    && AtMostAMinute(Get(d, "timeout"), after["timeout"])
    && ("command" in d ==>
          if IsLs(ToText(d["command"])) then
            && after["command"].Text? && RECURSIVE !in Words(after["command"].s)
            && var words := Words(ToText(d["command"]));
               Words(after["command"].s) == Without(words, RECURSIVE, |words|)
          else after["command"] == d["command"])
  }

  /** What is sent for a bash command. */
  lemma OptimizedMeaning(tool: string, d: Dict)
    requires Optimized(tool, d).Some? && Touched(tool, d)
    ensures Tamed(d, Optimized(tool, d).value)
  {
    SentMeaning(d["command"]);
    CappedMeaning(Get(d, "timeout"));
  }

  /** Arguments that went through once come out the same a second time. */
  lemma OptimizedTwice(tool: string, d: Dict)
    requires Optimized(tool, d).Some?
    ensures Optimized(tool, Optimized(tool, d).value) == Optimized(tool, d)
  {
    if Touched(tool, d) {
      SentMeaning(d["command"]);
      CappedMeaning(Get(d, "timeout"));
      SetTwice(d, Sent(d["command"]), Capped(Get(d, "timeout")).value);
    }
  }

  const LISTING := "ls -R src"

  lemma ListingIsLs()
    ensures IsLs(LISTING)
  {
    assert LISTING[1..][1..] == LISTING[2..];
    assert UpToSpace(LISTING[2..]) == "";
    assert UpToSpace(LISTING[1..]) == "s";
    assert UpToSpace(LISTING) == "ls";
  }

  lemma ListingWords()
    ensures Words(LISTING) == ["ls", "-R", "src"]
  {
    var words := ["ls", "-R", "src"];
    assert words[1..][1..] == ["src"] && words[1..][0] == "-R" && words[0] == "ls";
    assert Spaced(["src"]) == "src";
    assert Spaced(words[1..]) == "-R src";
    assert Spaced(words) == LISTING;
    WordsBack(words);
  }

  lemma ListingKept()
    ensures Without(["ls", "-R", "src"], RECURSIVE, 3) == ["ls", "src"] && Spaced(["ls", "src"]) == "ls src"
  {
    var words := ["ls", "-R", "src"];
    assert Without(words, RECURSIVE, 1) == ["ls"];
    assert Without(words, RECURSIVE, 2) == ["ls"];
    assert Spaced(["ls", "src"][1..]) == "src";
  }

  lemma ListingSent()
    ensures Sent(Text(LISTING)) == Text("ls src")
  {
    ListingIsLs();
    ListingWords();
    ListingKept();
  }

  /** For instance. */
  lemma Listing(d: Dict)
    requires "command" in d && d["command"] == Text(LISTING) && "timeout" !in d
    ensures Optimized("bash", d) == Some(d["command" := Text("ls src")]["timeout" := Number(60.0)])
  {
    ListingSent();
  }

  lemma SetTwice(d: Dict, command: Value, timeout: Value)
    ensures var once := d["command" := command]["timeout" := timeout];
            once["command" := command]["timeout" := timeout] == once
            && Get(once, "command") == command && Get(once, "timeout") == timeout
  {
  }
}
