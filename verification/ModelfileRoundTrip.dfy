/** Printing what the builder made and parsing it again. */
module ModelfileRoundTrip {
  import opened Prelude
  import opened Text
  import opened Roles
  import opened Modelfiles

  // ---------------------------------------------------------------- values the printer can carry

  predicate StartsWithWord(s: string) {
    exists i :: 0 <= i < |WORDS| && StartsWith(s, WORDS[i])
  }

  predicate OneLine(v: string) {
    v != "" && !IsSpace(v[0]) && '\n' !in v
  }

  /** No later quote can end what stands at the start. */
  predicate Unquoted(v: string)
    requires v != ""
  {
    v[0] != '"' || (QUOTE + QUOTE <= v && (TRIPLE <= v ==> TRIPLE + TRIPLE <= v))
  }

  predicate Plain(v: string) {
    OneLine(v) && Unquoted(v) && Trimmed(v)
  }

  /** A word at the start is followed by one space and an unquoted text. */
  predicate WordSpaced(v: string) {
    forall i :: 0 <= i < |WORDS| && StartsWith(v, WORDS[i]) ==> Spaced(v[|WORDS[i]|..])
  }

  predicate Spaced(rest: string) {
    |rest| > 1 && rest[0] == ' ' && !IsSpace(rest[1]) && Unquoted(rest[1..])
  }

  /** Values stand unquoted in the text, so a lone argument must not look like a pair. */
  predicate PlainCall(c: Call) {
    match c
    case Param(name, v) => Plain(v)
    case Chat(name, v) => Plain(v)
    case Comment(v) => OneLine(v) && Unquoted(v) && WordSpaced(v)
    case _ => Plain(c.value) && !StartsWithWord(c.value)
  }

  // ---------------------------------------------------------------- tags

  lemma FirstLetter(s: string, tag: string)
    requires StartsWith(s, tag) && tag != ""
    ensures s != "" && LowerChar(s[0]) == tag[0]
  {
    assert Lower(s[..|tag|])[0] == LowerChar(s[0]);
  }

  lemma {:induction false} TagFound(s: string, tags: seq<string>, k: nat)
    requires k < |tags| && StartsWith(s, tags[k])
    requires forall j :: 0 <= j < k ==> !StartsWith(s, tags[j])
    ensures AnyTag(s, tags) == Done(s[..|tags[k]|], s[|tags[k]|..])
  {
    if k > 0 {
      assert !StartsWith(s, tags[0]);
      assert forall j :: 0 <= j < k - 1 ==> tags[1..][j] == tags[j + 1];
      TagFound(s, tags[1..], k - 1);
    }
  }

  /** Instructions differ in their first letter, so the one in the text is the one found. */
  lemma InstructionFound(text: string, rest: string, k: nat)
    requires k < |INSTRUCTIONS| && Lower(text) == INSTRUCTIONS[k]
    ensures AnyTag(text + rest, INSTRUCTIONS) == Done(text, rest)
  {
    var s := text + rest;
    assert s[..|text|] == text && s[|text|..] == rest;
    assert StartsWith(s, INSTRUCTIONS[k]);
    FirstLetter(s, INSTRUCTIONS[k]);
    forall j | 0 <= j < k ensures !StartsWith(s, INSTRUCTIONS[j]) {
      if StartsWith(s, INSTRUCTIONS[j]) {
        FirstLetter(s, INSTRUCTIONS[j]);
      }
    }
    TagFound(s, INSTRUCTIONS, k);
  }

  lemma WordsPrefixFree(j: nat, k: nat)
    requires j < |WORDS| && k < |WORDS| && WORDS[j] <= WORDS[k]
    ensures j == k
  {
    var a, b := WORDS[j], WORDS[k];
    assert |a| >= 4 && a[0] == b[0] && a[1] == b[1] && a[2] == b[2] && a[3] == b[3];
    assert |a| > 4 ==> a[4] == b[4];
    assert |a| > 7 ==> a[7] == b[7];
  }

  lemma WordUnique(s: string, j: nat, k: nat)
    requires j < |WORDS| && k < |WORDS| && StartsWith(s, WORDS[j]) && StartsWith(s, WORDS[k])
    requires |WORDS[j]| <= |WORDS[k]|
    ensures j == k
  {
    assert Lower(s[..|WORDS[k]|])[..|WORDS[j]|] == Lower(s[..|WORDS[j]|]);
    WordsPrefixFree(j, k);
  }

  /** No word starts another, so the order of the alternatives does not matter. */
  lemma WordFound(s: string, k: nat)
    requires k < |WORDS| && StartsWith(s, WORDS[k])
    ensures AnyTag(s, WORDS) == Done(s[..|WORDS[k]|], s[|WORDS[k]|..])
  {
    forall j | 0 <= j < k ensures !StartsWith(s, WORDS[j]) {
      if StartsWith(s, WORDS[j]) {
        if |WORDS[j]| <= |WORDS[k]| { WordUnique(s, j, k); } else { WordUnique(s, k, j); }
      }
    }
    TagFound(s, WORDS, k);
  }

  lemma NoSpaceInWords(j: nat, i: nat)
    requires j < |WORDS| && i < |WORDS[j]|
    ensures WORDS[j][i] != ' ' && WORDS[j][i] != '\n'
  {
  }

  lemma WordInValue(v: string, t: string, j: nat)
    requires j < |WORDS| && StartsWith(v + t, WORDS[j]) && (t == "" || t[0] == '\n')
    ensures StartsWith(v, WORDS[j])
  {
    var n := |WORDS[j]|;
    if |v| < n {
      assert Lower((v + t)[..n])[|v|] == '\n';
      NoSpaceInWords(j, |v|);
    } else {
      assert (v + t)[..n] == v[..n];
    }
  }

  /** A lone value followed by a line break or nothing is not taken for a pair. */
  lemma NoWord(v: string, t: string)
    requires !StartsWithWord(v) && (t == "" || t[0] == '\n')
    ensures AnyTag(v + t, WORDS).Fail?
  {
    forall j | 0 <= j < |WORDS| ensures !StartsWith(v + t, WORDS[j]) {
      if StartsWith(v + t, WORDS[j]) {
        WordInValue(v, t, j);
      }
    }
  }

  // ---------------------------------------------------------------- one line

  lemma SpaceThen(v: string)
    requires v != "" && !IsSpace(v[0])
    ensures SkipSpace(" " + v) == v
  {
    assert (" " + v)[1..] == v;
  }

  lemma ReadSingleLine(v: string, t: string)
    requires OneLine(v) && LineEnd(t)
    ensures SingleLine(v + t) == Done(v, SkipSpace(t))
  {
    LineLengthIs(v, t);
    assert (v + t)[..|v|] == v && (v + t)[|v|..] == t;
  }

  lemma AtStart(s: string, pat: string)
    requires pat <= s
    ensures IndexOf(s, pat) == Some(0)
  {
    assert At(s, pat, 0);
    assert Occurs(s, pat);
  }

  lemma NotQuoted(v: string, t: string)
    requires v != "" && Unquoted(v) && LineEnd(t)
    ensures Quoted(v + t, TRIPLE).Fail? && Quoted(v + t, QUOTE).Fail?
  {
    var s := v + t;
    assert s[0] == v[0] && s[..1][0] == s[0];
    assert |s| >= 3 ==> s[..3][0] == s[0];
    if v[0] == '"' {
      assert v[1] == (QUOTE + QUOTE)[1];
      AtStart(s[1..], QUOTE);
      if |s| >= 3 && s[..3] == TRIPLE {
        assert s[2] == s[..3][2];
        assert TRIPLE <= v;
        assert v[3..6] == (TRIPLE + TRIPLE)[3..6] == TRIPLE;
        assert s[3..][..3] == v[3..6];
        AtStart(s[3..], TRIPLE);
      }
    }
  }

  lemma ReadLone(v: string, t: string)
    requires OneLine(v) && Unquoted(v) && !StartsWithWord(v) && LineEnd(t)
    ensures Arguments(v + t) == Done(Single(v), SkipSpace(t))
  {
    NotQuoted(v, t);
    NoWord(v, t);
    ReadSingleLine(v, t);
  }

  lemma ReadArgument(v: string, t: string)
    requires OneLine(v) && Unquoted(v) && LineEnd(t)
    ensures Argument(v + t) == Done(v, SkipSpace(t))
  {
    NotQuoted(v, t);
    ReadSingleLine(v, t);
  }

  lemma NoQuoteFirst(s: string)
    requires s != "" && s[0] != '"'
    ensures Quoted(s, TRIPLE).Fail? && Quoted(s, QUOTE).Fail?
  {
    assert s[..1][0] == s[0];
    assert |s| >= 3 ==> s[..3][0] == s[0];
  }

  lemma ArgumentsPair(s: string, name: string, rest: string)
    requires s != "" && s[0] != '"' && !IsSpace(s[0]) && AnyTag(s, WORDS) == Done(name, rest)
    requires Argument(SkipSpace(rest)).Done?
    ensures Arguments(s) == Done(Pair(name, Argument(SkipSpace(rest)).value), Argument(SkipSpace(rest)).rest)
  {
    NoQuoteFirst(s);
  }

  lemma ReadPair(name: string, v: string, t: string)
    requires name != "" && name[0] != '"' && !IsSpace(name[0]) && OneLine(v) && Unquoted(v) && LineEnd(t)
    requires AnyTag(name + (" " + (v + t)), WORDS) == Done(name, " " + (v + t))
    ensures Arguments(name + (" " + (v + t))) == Done(Pair(name, v), SkipSpace(t))
  {
    ReadArgument(v, t);
    SpaceThen(v + t);
    ArgumentsPair(name + (" " + (v + t)), name, " " + (v + t));
  }

  lemma WordStart(k: nat)
    requires k < |WORDS|
    ensures |WORDS[k]| > 0 && 'a' <= WORDS[k][0] <= 'z'
  {
  }

  lemma ReadInstruction(tag: string, s: string)
    requires tag != "" && !IsSpace(tag[0]) && AnyTag(tag + (" " + s), INSTRUCTIONS) == Done(tag, " " + s)
    requires s != "" && !IsSpace(s[0]) && Arguments(s).Done?
    ensures ParseCommand(tag + (" " + s)) == Done(Command(tag, Arguments(s).value), Arguments(s).rest)
  {
    SpaceThen(s);
    assert (tag + (" " + s))[0] == tag[0];
  }

  /** The tag a call's line starts with. */
  function TagOf(c: Call): string {
    match c
    case From(_) => "FROM"
    case Template(_) => "TEMPLATE"
    case License(_) => "LICENSE"
    case Adapter(_) => "ADAPTER"
    case SystemText(_) => "SYSTEM"
    case Comment(_) => "#"
    case Param(_, _) => "PARAMETER"
    case Chat(_, _) => "MESSAGE"
  }

  function TagIndex(c: Call): nat {
    match c
    case From(_) => 0
    case Param(_, _) => 1
    case Template(_) => 2
    case SystemText(_) => 3
    case Adapter(_) => 4
    case License(_) => 5
    case Chat(_, _) => 6
    case Comment(_) => 7
  }

  lemma TagIs(c: Call)
    ensures TagIndex(c) < |INSTRUCTIONS| && Lower(TagOf(c)) == INSTRUCTIONS[TagIndex(c)]
    ensures TagOf(c) != "" && !IsSpace(TagOf(c)[0])
  {
  }

  /** The words that successful parameter and message calls use are words the parser knows. */
  lemma KnownWord(c: Call, floats: Floats) returns (k: nat)
    requires (c.Param? && ParseParameter(c.name, c.value, floats).Ok?) || (c.Chat? && ParseMessage(c.name, c.value).Ok?)
    ensures k < |WORDS| && Lower(c.name) == WORDS[k]
  {
    var name := Lower(c.name);
    assert Lower(name) == name;
    if c.Param? {
      k := if name == "stop" then 0 else if name == "num_ctx" then 1 else if name == "repeat_last_n" then 2
           else if name == "temperature" then 3 else if name == "seed" then 4 else if name == "top_k" then 5
           else if name == "top_p" then 6 else if name == "min_p" then 7 else if name == "num_predict" then 8 else 9;
    } else {
      k := if name == "user" then 10 else if name == "assistant" then 11 else 12;
    }
  }

  predicate Accepted(c: Call, floats: Floats) {
    && (c.Param? ==> ParseParameter(c.name, c.value, floats).Ok?)
    && (c.Chat? ==> ParseMessage(c.name, c.value).Ok?)
  }

  /** A comment that starts with a word is taken for a pair, and shown as it was. */
  function CommentOutput(v: string): Output {
    match AnyTag(v, WORDS)
    case Done(word, rest) => if rest == "" then Single(v) else Pair(word, rest[1..])
    case Fail => Single(v)
  }

  function CommandFor(c: Call): Command {
    Command(TagOf(c),
            if c.Param? || c.Chat? then Pair(c.name, c.value)
            else if c.Comment? then CommentOutput(c.value)
            else Single(c.value))
  }

  lemma CommentParts(v: string)
    requires OneLine(v) && WordSpaced(v) && StartsWithWord(v)
    ensures AnyTag(v, WORDS).Done?
    ensures var (word, rest) := (AnyTag(v, WORDS).value, AnyTag(v, WORDS).rest);
            Spaced(rest) && v == word + (" " + rest[1..]) && OneLine(rest[1..])
    ensures exists k :: 0 <= k < |WORDS| && Lower(AnyTag(v, WORDS).value) == WORDS[k]
  {
    var word, rest := AnyTag(v, WORDS).value, AnyTag(v, WORDS).rest;
    var k :| 0 <= k < |WORDS| && Lower(word) == WORDS[k];
    assert v[..|word|] == word && v[|WORDS[k]|..] == rest;
    assert StartsWith(v, WORDS[k]);
    assert rest == " " + rest[1..];
  }

  lemma ReadWord(word: string, k: nat, v: string, t: string)
    requires k < |WORDS| && Lower(word) == WORDS[k] && OneLine(v) && Unquoted(v) && LineEnd(t)
    ensures Arguments(word + (" " + (v + t))) == Done(Pair(word, v), SkipSpace(t))
  {
    var s := word + (" " + (v + t));
    assert s[..|word|] == word && s[|word|..] == " " + (v + t);
    WordFound(s, k);
    WordStart(k);
    assert Lower(word)[0] == LowerChar(word[0]);
    ReadPair(word, v, t);
  }

  lemma Regroup(v: string, word: string, a: string, t: string)
    requires v == word + (" " + a)
    ensures v + t == word + (" " + (a + t)) && word + " " + a == v
  {
  }

  lemma ReadComment(v: string, t: string)
    requires OneLine(v) && Unquoted(v) && WordSpaced(v) && LineEnd(t)
    ensures Arguments(v + t) == Done(CommentOutput(v), SkipSpace(t))
    ensures Show(CommentOutput(v)) == v
  {
    if StartsWithWord(v) {
      CommentParts(v);
      var word, a := AnyTag(v, WORDS).value, AnyTag(v, WORDS).rest[1..];
      var k :| 0 <= k < |WORDS| && Lower(word) == WORDS[k];
      ReadWord(word, k, a, t);
      Regroup(v, word, a, t);
    } else {
      ReadLone(v, t);
    }
  }

  lemma CallShown(c: Call, o: Output)
    requires if c.Param? || c.Chat? then o == Pair(c.name, c.value) && Trim(c.value) == c.value
             else if c.Comment? then Show(o) == c.value
             else o == Single(c.value) && Trim(c.value) == c.value
    ensures CallOf(Command(TagOf(c), o)) == Some(c)
  {
    TagIs(c);
  }

  lemma CallForLine(c: Call)
    requires PlainCall(c)
    ensures CallOf(CommandFor(c)) == Some(c)
  {
    if c.Comment? {
      ReadComment(c.value, "");
      CallShown(c, CommentOutput(c.value));
    } else {
      assert Trim(c.value) == c.value;
      CallShown(c, CommandFor(c).output);
    }
  }

  /** What stands after the tag of a line. */
  function Rest(c: Call, t: string): string {
    if c.Param? || c.Chat? then c.name + (" " + (c.value + t)) else c.value + t
  }

  lemma Glue(tag: string, start: string, v: string, t: string)
    requires start == tag + " "
    ensures (start + v) + t == tag + (" " + (v + t))
  {
  }

  lemma GluePair(tag: string, start: string, name: string, v: string, t: string)
    requires start == tag + " "
    ensures (start + name + " " + v) + t == tag + (" " + (name + (" " + (v + t))))
  {
  }

  lemma LineForm(c: Call, t: string)
    ensures Line(c) + t == TagOf(c) + (" " + Rest(c, t))
  {
    match c
    case Param(name, v) => GluePair("PARAMETER", "PARAMETER ", name, v, t);
    case Chat(name, v) => GluePair("MESSAGE", "MESSAGE ", name, v, t);
    case Comment(v) => Glue("#", "# ", v, t);
    case From(v) => Glue("FROM", "FROM ", v, t);
    case Template(v) => Glue("TEMPLATE", "TEMPLATE ", v, t);
    case License(v) => Glue("LICENSE", "LICENSE ", v, t);
    case Adapter(v) => Glue("ADAPTER", "ADAPTER ", v, t);
    case SystemText(v) => Glue("SYSTEM", "SYSTEM ", v, t);
  }

  /** The arguments of a printed line are read back. */
  lemma ReadArguments(c: Call, t: string, floats: Floats)
    requires PlainCall(c) && Accepted(c, floats) && LineEnd(t)
    ensures Rest(c, t) != "" && !IsSpace(Rest(c, t)[0])
    ensures Arguments(Rest(c, t)) == Done(CommandFor(c).output, SkipSpace(t))
  {
    if c.Param? || c.Chat? {
      var k := KnownWord(c, floats);
      WordStart(k);
      assert Lower(c.name)[0] == LowerChar(c.name[0]);
      ReadWord(c.name, k, c.value, t);
    } else if c.Comment? {
      ReadComment(c.value, t);
    } else {
      ReadLone(c.value, t);
    }
  }

  /** A printed line is read back as the call that made it, whatever follows on other lines. */
  lemma ReadLine(c: Call, t: string, floats: Floats)
    requires PlainCall(c) && Accepted(c, floats) && LineEnd(t)
    ensures ParseCommand(Line(c) + t) == Done(CommandFor(c), SkipSpace(t))
  {
    TagIs(c);
    LineForm(c, t);
    ReadArguments(c, t, floats);
    InstructionFound(TagOf(c), " " + Rest(c, t), TagIndex(c));
    ReadInstruction(TagOf(c), Rest(c, t));
  }

  // ---------------------------------------------------------------- all lines

  function TextOf(calls: seq<Call>): string {
    if calls == [] then ""
    else if |calls| == 1 then Line(calls[0])
    else Line(calls[0]) + "\n" + TextOf(calls[1..])
  }

  function Lines(calls: seq<Call>): seq<string> {
    seq(|calls|, i requires 0 <= i < |calls| => Line(calls[i]))
  }

  lemma {:induction false} JoinLines(calls: seq<Call>)
    ensures Join(Lines(calls)) == TextOf(calls)
  {
    if |calls| > 1 {
      JoinLines(calls[1..]);
      assert Lines(calls)[1..] == Lines(calls[1..]);
    }
  }

  function Commands(calls: seq<Call>): seq<Command> {
    seq(|calls|, i requires 0 <= i < |calls| => CommandFor(calls[i]))
  }

  ghost predicate AllPlain(calls: seq<Call>) {
    forall i :: 0 <= i < |calls| ==> PlainCall(calls[i])
  }

  ghost predicate AllAccepted(calls: seq<Call>, floats: Floats) {
    forall i :: 0 <= i < |calls| ==> Accepted(calls[i], floats)
  }

  /** Text the parser gives up on without an error. */
  predicate Ignored(tail: string) {
    LineEnd(tail) && ParseCommand(SkipSpace(tail)).Fail?
  }

  lemma NothingIgnored()
    ensures Ignored("")
  {
    assert forall i :: 0 <= i < |INSTRUCTIONS| ==> !StartsWith("", INSTRUCTIONS[i]);
  }

  lemma TextStart(calls: seq<Call>, tail: string)
    requires calls != []
    ensures TextOf(calls) + tail != "" && !IsSpace((TextOf(calls) + tail)[0])
  {
    TagIs(calls[0]);
    LineForm(calls[0], "");
    assert Line(calls[0]) + "" == Line(calls[0]);
    assert Line(calls[0])[0] == TagOf(calls[0])[0];
    assert (TextOf(calls) + tail)[0] == Line(calls[0])[0];
  }

  /** The text of plain calls is read back line by line. */
  lemma {:induction false} ReadLines(calls: seq<Call>, tail: string, floats: Floats)
    requires calls != [] && AllPlain(calls) && AllAccepted(calls, floats) && Ignored(tail)
    ensures ParseRest(TextOf(calls) + tail).value == Commands(calls)
    ensures ParseFile(TextOf(calls) + tail).Done? && ParseFile(TextOf(calls) + tail).value == Commands(calls)
    decreases |calls|
  {
    var rest := calls[1..];
    TextSplit(calls, tail);
    CommandsCons(calls);
    if rest == [] {
      ReadOne(calls[0], tail, floats);
    } else {
      ReadLines(rest, tail, floats);
      ReadFirst(calls[0], rest, tail, floats);
    }
  }

  lemma CommandsCons(calls: seq<Call>)
    requires calls != []
    ensures Commands(calls) == [CommandFor(calls[0])] + Commands(calls[1..])
    ensures calls[1..] == [] ==> Commands(calls) == [CommandFor(calls[0])]
  {
  }

  lemma ReadFirst(c: Call, rest: seq<Call>, tail: string, floats: Floats)
    requires PlainCall(c) && Accepted(c, floats) && rest != []
    ensures var text := Line(c) + ("\n" + (TextOf(rest) + tail));
            && ParseFile(text).Done? && ParseFile(text).value == ParseRest(text).value
            && ParseRest(text).value == [CommandFor(c)] + ParseRest(TextOf(rest) + tail).value
  {
    var more := TextOf(rest) + tail;
    ReadOne(c, "\n" + more, floats);
    TextStart(rest, tail);
    BreakThen(more);
  }

  /** Reading goes on behind the first line. */
  lemma ReadOne(c: Call, t: string, floats: Floats)
    requires PlainCall(c) && Accepted(c, floats) && LineEnd(t)
    ensures ParseFile(Line(c) + t).Done? && ParseFile(Line(c) + t).value == ParseRest(Line(c) + t).value
    ensures ParseRest(Line(c) + t).value == [CommandFor(c)] + ParseRest(SkipSpace(t)).value
    ensures Ignored(t) ==> ParseRest(SkipSpace(t)).value == []
  {
    ReadLine(c, t, floats);
    TextStart([c], t);
    OneCommand(Line(c) + t);
  }

  lemma TextSplit(calls: seq<Call>, tail: string)
    requires calls != []
    ensures TextOf(calls) + tail
         == Line(calls[0]) + (if calls[1..] == [] then tail else "\n" + (TextOf(calls[1..]) + tail))
  {
  }

  lemma BreakThen(s: string)
    requires s != "" && !IsSpace(s[0])
    ensures SkipSpace("\n" + s) == s
  {
    assert ("\n" + s)[1..] == s;
  }

  lemma OneCommand(s: string)
    requires SkipSpace(s) == s && ParseCommand(s).Done?
    ensures ParseRest(s).value == [ParseCommand(s).value] + ParseRest(ParseCommand(s).rest).value
    ensures ParseFile(s).Done? && ParseFile(s).value == ParseRest(s).value
  {
  }

  // ---------------------------------------------------------------- what the builder made

  function Fold(calls: seq<Call>, floats: Floats): Content {
    if calls == [] then EMPTY else Apply(Fold(calls[..|calls| - 1], floats), calls[|calls| - 1], floats)
  }

  lemma {:induction false} RunAllFolds(calls: seq<Call>, floats: Floats)
    requires AllPlain(calls)
    ensures RunAll(Commands(calls), floats) == Fold(calls, floats)
  {
    if calls != [] {
      var init := calls[..|calls| - 1];
      RunAllFolds(init, floats);
      assert Commands(calls)[..|calls| - 1] == Commands(init);
      CallForLine(calls[|calls| - 1]);
    }
  }

  /** The lines a builder is left with: a later SYSTEM takes the place of the first. */
  function Effective(calls: seq<Call>): seq<Call> {
    if calls == [] then []
    else PutCall(Effective(calls[..|calls| - 1]), calls[|calls| - 1])
  }

  function SystemAt(e: seq<Call>): (k: nat)
    ensures k <= |e| && (k < |e| ==> e[k].SystemText?)
    ensures forall j :: 0 <= j < k ==> !e[j].SystemText?
  {
    if e == [] || e[0].SystemText? then 0 else 1 + SystemAt(e[1..])
  }

  function PutCall(e: seq<Call>, c: Call): seq<Call> {
    var k := SystemAt(e);
    if c.SystemText? && k < |e| then e[k := c] else e + [c]
  }

  lemma SystemLines(c: Call)
    ensures IsSystemLine(Line(c)) <==> c.SystemText?
  {
    LineForm(c, "");
    assert Line(c) + "" == Line(c);
    TagIs(c);
    var tag := TagOf(c);
    assert Line(c)[0] == tag[0];
    assert Lower(tag)[0] == LowerChar(tag[0]);
    if c.SystemText? {
      assert Line(c)[..6] == "SYSTEM";
    } else if IsSystemLine(Line(c)) {
      FirstLetter(Line(c), "system");
    }
  }

  lemma SystemAtSame(e: seq<Call>)
    ensures SystemLineAt(Lines(e)) == SystemAt(e)
  {
    forall i | 0 <= i < |e| ensures IsSystemLine(Lines(e)[i]) <==> e[i].SystemText? {
      SystemLines(e[i]);
    }
  }

  lemma PutSystemLines(e: seq<Call>, c: Call)
    requires c.SystemText?
    ensures PutSystem(Lines(e), Line(c)) == Lines(PutCall(e, c))
  {
    SystemAtSame(e);
  }

  lemma ErrorsStay(m: Content, c: Call, floats: Floats)
    requires Apply(m, c, floats).errors == []
    ensures m.errors == [] && Accepted(c, floats)
    ensures Apply(m, c, floats).data == if c.SystemText? then PutSystem(m.data, Line(c)) else m.data + [Line(c)]
  {
    assert |Apply(m, c, floats).errors| >= |m.errors|;
  }

  /** At most one SYSTEM line. */
  ghost predicate OneSystem(e: seq<Call>) {
    forall i, j :: 0 <= i < j < |e| && e[i].SystemText? ==> !e[j].SystemText?
  }

  lemma FoldLast(init: seq<Call>, c: Call, floats: Floats)
    ensures Fold(init + [c], floats) == Apply(Fold(init, floats), c, floats)
  {
    assert (init + [c])[..|init|] == init;
  }

  lemma SystemTwice(m: Content, c: Call, d: Call, floats: Floats)
    requires c.SystemText? && d.SystemText?
    ensures Apply(Apply(m, c, floats), d, floats) == Apply(m, d, floats)
  {
    SystemLines(c);
    var k := SystemLineAt(m.data);
    var once := PutSystem(m.data, Line(c));
    assert k < |once| && IsSystemLine(once[k]) && forall j :: 0 <= j < k ==> once[j] == m.data[j];
    assert SystemLineAt(once) == k;
  }

  /** Other calls neither read nor write the system text, and only add to the log. */
  lemma OtherCall(m: Content, d: Call, system: Option<string>, data: seq<string>, floats: Floats)
    requires !d.SystemText? && Apply(m, d, floats).errors == []
    ensures Apply(m.(system := system, data := data), d, floats)
         == Apply(m, d, floats).(system := system, data := data + [Line(d)])
  {
    ErrorsStay(m, d, floats);
  }

  lemma SystemLineIs(data: seq<string>, k: nat)
    requires k < |data| && IsSystemLine(data[k])
    requires forall j {:trigger IsSystemLine(data[j])} :: 0 <= j < k ==> !IsSystemLine(data[j])
    ensures SystemLineAt(data) == k
  {
    assert SystemLineAt(data) < |data| ==> IsSystemLine(data[SystemLineAt(data)]);
  }

  lemma UpdateBefore<T>(s: seq<T>, k: nat, x: T, more: T)
    requires k < |s|
    ensures (s + [more])[k := x] == s[k := x] + [more]
  {
  }

  lemma PutBefore(data: seq<string>, line: string, more: string)
    requires SystemLineAt(data) < |data|
    ensures PutSystem(data + [more], line) == PutSystem(data, line) + [more]
  {
    var k := SystemLineAt(data);
    var longer := data + [more];
    forall j | 0 <= j < k ensures !IsSystemLine(longer[j]) {
      assert longer[j] == data[j];
    }
    SystemLineIs(longer, k);
    UpdateBefore(data, k, line, more);
  }

  function WithSystem(m: Content, value: string, line: string): Content {
    m.(system := Some(value), data := PutSystem(m.data, line))
  }

  lemma SystemIs(m: Content, c: Call, floats: Floats)
    requires c.SystemText?
    ensures Apply(m, c, floats) == WithSystem(m, c.value, Line(c))
  {
  }

  lemma WithSystemLater(m: Content, value: string, line: string, d: Call, floats: Floats)
    requires !d.SystemText? && SystemLineAt(m.data) < |m.data| && Apply(m, d, floats).errors == []
    ensures Apply(WithSystem(m, value, line), d, floats) == WithSystem(Apply(m, d, floats), value, line)
  {
    OtherCall(m, d, Some(value), PutSystem(m.data, line), floats);
    ErrorsStay(m, d, floats);
    PutBefore(m.data, line, Line(d));
  }

  lemma SystemLater(m: Content, c: Call, d: Call, floats: Floats)
    requires c.SystemText? && !d.SystemText? && SystemLineAt(m.data) < |m.data| && Apply(m, d, floats).errors == []
    ensures Apply(Apply(m, c, floats), d, floats) == Apply(Apply(m, d, floats), c, floats)
  {
    SystemIs(m, c, floats);
    SystemIs(Apply(m, d, floats), c, floats);
    WithSystemLater(m, c.value, Line(c), d, floats);
  }

  lemma SystemCallIs(e: seq<Call>, k: nat)
    requires k < |e| && e[k].SystemText?
    requires forall j {:trigger e[j]} :: 0 <= j < k ==> !e[j].SystemText?
    ensures SystemAt(e) == k
  {
    var s := SystemAt(e);
    assert s < |e| ==> e[s].SystemText?;
  }

  lemma PutCallInit(init: seq<Call>, last: Call, c: Call)
    requires c.SystemText? && SystemAt(init + [last]) < |init|
    ensures SystemAt(init) == SystemAt(init + [last])
    ensures PutCall(init + [last], c) == PutCall(init, c) + [last]
  {
    var k := SystemAt(init + [last]);
    ReadsInit(init, last, k);
    SystemCallIs(init, k);
    UpdateBefore(init, k, c, last);
  }

  lemma ReadsInit(init: seq<Call>, last: Call, k: nat)
    requires k < |init| && (init + [last])[k].SystemText?
    requires forall j :: 0 <= j < k ==> !(init + [last])[j].SystemText?
    ensures init[k].SystemText? && forall j :: 0 <= j < k ==> !init[j].SystemText?
  {
    forall j | 0 <= j < k ensures !init[j].SystemText? {
      assert init[j] == (init + [last])[j];
    }
  }

  lemma OneSystemInit(init: seq<Call>, last: Call)
    requires OneSystem(init + [last])
    ensures OneSystem(init)
    ensures SystemAt(init + [last]) < |init| ==> !last.SystemText?
  {
    var e := init + [last];
    assert forall i :: 0 <= i < |init| ==> e[i] == init[i];
    var k := SystemAt(e);
    assert k < |init| ==> e[k].SystemText? && e[|init|] == last;
  }

  ghost predicate Logged(e: seq<Call>, floats: Floats) {
    Fold(e, floats).errors == [] && Fold(e, floats).data == Lines(e)
  }

  ghost predicate PutFolds(e: seq<Call>, c: Call, floats: Floats) {
    Fold(PutCall(e, c), floats) == Apply(Fold(e, floats), c, floats)
  }

  lemma SplitLast(e: seq<Call>) returns (init: seq<Call>, last: Call)
    requires e != []
    ensures e == init + [last]
    ensures |init| < |e|
  {
    init, last := e[..|e| - 1], e[|e| - 1];
  }

  /** Setting the system text late is the same as having set it where its line stands. */
  lemma {:induction false} PutCallFolds(e: seq<Call>, c: Call, floats: Floats)
    requires OneSystem(e) && Logged(e, floats)
    ensures PutFolds(e, c, floats)
    decreases |e|
  {
    if e == [] {
      FoldLast(e, c, floats);
    } else {
      var init, last := SplitLast(e);
      OneSystemInit(init, last);
      if c.SystemText? && SystemAt(init + [last]) < |init| {
        FoldInit(init, last, floats);
        PutCallFolds(init, c, floats);
        PutEarlierFolds(init, last, c, floats);
      } else {
        PutLastFolds(init, last, c, floats);
      }
    }
  }

  lemma PutCallLast(init: seq<Call>, last: Call, c: Call)
    requires c.SystemText? && SystemAt(init + [last]) == |init|
    ensures last.SystemText? && PutCall(init + [last], c) == init + [c]
  {
    var e := init + [last];
    assert e[|init|] == last;
    assert e[|init| := c] == init + [c];
  }

  lemma PutLastFolds(init: seq<Call>, last: Call, c: Call, floats: Floats)
    requires c.SystemText? ==> SystemAt(init + [last]) >= |init|
    ensures PutFolds(init + [last], c, floats)
  {
    if c.SystemText? && SystemAt(init + [last]) == |init| {
      PutCallLast(init, last, c);
      FoldLast(init, c, floats);
      FoldLast(init, last, floats);
      SystemTwice(Fold(init, floats), last, c, floats);
    } else {
      FoldLast(init + [last], c, floats);
    }
  }

  lemma PutEarlierFolds(init: seq<Call>, last: Call, c: Call, floats: Floats)
    requires c.SystemText? && !last.SystemText? && SystemAt(init + [last]) < |init|
    requires Fold(init + [last], floats).errors == [] && Logged(init, floats) && PutFolds(init, c, floats)
    ensures PutFolds(init + [last], c, floats)
  {
    PutCallInit(init, last, c);
    FoldLast(PutCall(init, c), last, floats);
    FoldLast(init, last, floats);
    SystemAtSame(init);
    SystemLater(Fold(init, floats), c, last, floats);
  }

  lemma FoldInit(init: seq<Call>, last: Call, floats: Floats)
    requires !last.SystemText? && Logged(init + [last], floats)
    ensures Logged(init, floats)
  {
    FoldLast(init, last, floats);
    ErrorsStay(Fold(init, floats), last, floats);
    LinesInit(init, last, Fold(init, floats).data);
  }

  lemma LinesInit(init: seq<Call>, last: Call, data: seq<string>)
    requires data + [Line(last)] == Lines(init + [last])
    ensures data == Lines(init)
  {
    assert |data| == |init|;
    assert forall i :: 0 <= i < |data| ==> data[i] == (data + [Line(last)])[i];
  }

  lemma PutCallLines(e: seq<Call>, c: Call)
    ensures Lines(PutCall(e, c)) == if c.SystemText? then PutSystem(Lines(e), Line(c)) else Lines(e) + [Line(c)]
  {
    if c.SystemText? {
      PutSystemLines(e, c);
    }
  }

  lemma PutCallKeeps(e: seq<Call>, c: Call, floats: Floats)
    requires OneSystem(e) && AllAccepted(e, floats) && Accepted(c, floats)
    ensures OneSystem(PutCall(e, c)) && AllAccepted(PutCall(e, c), floats)
    ensures AllPlain(e) && PlainCall(c) ==> AllPlain(PutCall(e, c))
  {
  }

  /** The lines that are left stand for the same Modelfile as all the calls. */
  lemma {:induction false} EffectiveFolds(calls: seq<Call>, floats: Floats)
    requires Fold(calls, floats).errors == []
    ensures Fold(Effective(calls), floats) == Fold(calls, floats)
    ensures Fold(calls, floats).data == Lines(Effective(calls))
    ensures OneSystem(Effective(calls)) && AllAccepted(Effective(calls), floats)
    ensures AllPlain(calls) ==> AllPlain(Effective(calls))
  {
    if calls != [] {
      var init, c := calls[..|calls| - 1], calls[|calls| - 1];
      ErrorsStay(Fold(init, floats), c, floats);
      EffectiveFolds(init, floats);
      PutCallFolds(Effective(init), c, floats);
      PutCallLines(Effective(init), c);
      PutCallKeeps(Effective(init), c, floats);
    }
  }

  // ---------------------------------------------------------------- main results

  /** Whatever a series of successful builder calls on plain values made, with a FROM
      among them, its printed form parses to the same Modelfile: fields, parameters,
      messages and data lines. Text after it that is no command changes nothing. */
  lemma RoundTrip(calls: seq<Call>, tail: string, floats: Floats)
    requires AllPlain(calls) && Ignored(tail)
    requires Fold(calls, floats).errors == [] && Fold(calls, floats).from.Some?
    ensures Parse(Print(Fold(calls, floats)) + tail, floats) == Ok(Fold(calls, floats))
  {
    var e := Effective(calls);
    EffectiveFolds(calls, floats);
    assert e != [] by {
      assert e == [] ==> Fold(e, floats) == EMPTY;
    }
    JoinLines(e);
    ReadLines(e, tail, floats);
    RunAllFolds(e, floats);
  }

  /** Printing and parsing again is the identity. */
  lemma PrintParse(calls: seq<Call>, floats: Floats)
    requires AllPlain(calls) && Fold(calls, floats).errors == [] && Fold(calls, floats).from.Some?
    ensures Parse(Print(Fold(calls, floats)), floats) == Ok(Fold(calls, floats))
  {
    NothingIgnored();
    RoundTrip(calls, "", floats);
    assert Print(Fold(calls, floats)) + "" == Print(Fold(calls, floats));
  }
}
