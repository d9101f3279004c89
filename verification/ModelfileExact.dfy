/** Which values the printed form can carry: exactly the plain ones. */
module ModelfileExact {
  import opened Prelude
  import opened Text
  import opened Modelfiles
  import opened ModelfileRoundTrip

  /** The line of a call, followed by nothing or by other lines, is read as that call. */
  predicate ReadsAs(c: Call, t: string) {
    var p := ParseCommand(Line(c) + t);
    p.Done? && CallOf(p.value) == Some(c) && p.rest == SkipSpace(t)
  }

  ghost predicate ReadBack(c: Call) {
    forall t :: LineEnd(t) ==> ReadsAs(c, t)
  }

  // ---------------------------------------------------------------- what follows can close a quote

  /** A next line that ends what a quote at the start of `v` began. */
  function Closer(v: string): string {
    "\n" + (if TRIPLE <= v then TRIPLE else QUOTE)
  }

  lemma FoundBy(s: string, pat: string, i: nat)
    requires At(s, pat, i) && !At(s, pat, 0)
    ensures IndexOf(s, pat).Some? && 0 < IndexOf(s, pat).value <= i
  {
    assert Occurs(s, pat);
  }

  lemma TripleCloses(v: string)
    requires TRIPLE <= v && !(TRIPLE + TRIPLE <= v) && '\n' !in v
    ensures Quoted(v + Closer(v), TRIPLE).Done? && |Quoted(v + Closer(v), TRIPLE).value| < |v|
  {
    var s := v + Closer(v);
    var body := s[3..];
    assert body == v[3..] + Closer(v);
    assert body[|v| - 2..|v| + 1] == TRIPLE;
    assert !At(body, TRIPLE, 0) by {
      if |v| >= 6 {
        assert body[..3] == v[3..6];
        assert v[..6] == TRIPLE + v[3..6];
      } else {
        assert body[|v| - 3] == '\n';
      }
    }
    FoundBy(body, TRIPLE, |v| - 2);
  }

  lemma SingleCloses(v: string)
    requires v != "" && v[0] == '"' && !(QUOTE + QUOTE <= v)
    ensures Quoted(v + Closer(v), TRIPLE).Fail? && Quoted(v + Closer(v), QUOTE).Done?
    ensures var text := Quoted(v + Closer(v), QUOTE).value; |text| <= |v| && text[0] != '"'
  {
    var s := v + Closer(v);
    var body := s[1..];
    assert s[..1] == QUOTE && body == v[1..] + Closer(v);
    assert body[0] != '"' by {
      if |v| > 1 {
        assert v[..2] == [v[0], v[1]];
      }
    }
    var head := s[..3];
    assert head[1] == s[1];
    assert body[|v|..|v| + 1] == QUOTE;
    FoundBy(body, QUOTE, |v|);
  }

  lemma CloserBreaks(v: string)
    requires v != "" && '\n' !in v && !Unquoted(v)
    ensures LineEnd(Closer(v)) && Argument(v + Closer(v)).Done?
    ensures Arguments(v + Closer(v)) == AsSingle(Argument(v + Closer(v)))
    ensures Argument(v + Closer(v)).value != v && Trim(Argument(v + Closer(v)).value) != v
  {
    if TRIPLE <= v {
      TripleCloses(v);
    } else {
      SingleCloses(v);
    }
  }

  // ---------------------------------------------------------------- a word takes what follows

  const MORE := "\nx"

  lemma {:induction false} SpaceBefore(s: string)
    requires s != "" && !IsSpace(s[|s| - 1])
    ensures SkipSpace(s) != "" && SkipSpace(s)[|SkipSpace(s)| - 1] == s[|s| - 1]
  {
    if IsSpace(s[0]) {
      SpaceBefore(s[1..]);
    }
  }

  lemma SomeArgument(s: string)
    requires s != "" && !IsSpace(s[0])
    ensures Argument(s).Done?
  {
  }

  lemma WordThere(word: string, k: nat, rest: string)
    requires k < |WORDS| && Lower(word) == WORDS[k]
    ensures AnyTag(word + rest, WORDS) == Done(word, rest)
    ensures word != "" && !IsSpace(word[0]) && word[0] != '"'
  {
    var s := word + rest;
    assert s[..|word|] == word && s[|word|..] == rest;
    WordFound(s, k);
    WordStart(k);
    FirstLetter(s, WORDS[k]);
  }

  lemma WordTakesMore(word: string, k: nat, more: string)
    requires k < |WORDS| && Lower(word) == WORDS[k] && SkipSpace(more) != ""
    ensures Argument(SkipSpace(more)).Done?
    ensures Arguments(word + more).Done?
    ensures Arguments(word + more).value == Pair(word, Argument(SkipSpace(more)).value)
  {
    WordThere(word, k, more);
    SomeArgument(SkipSpace(more));
    ArgumentsPair(word + more, word, more);
  }

  lemma WordTakes(word: string, k: nat, rest: string, t: string)
    requires k < |WORDS| && Lower(word) == WORDS[k] && t != "" && !IsSpace(t[|t| - 1])
    ensures Argument(SkipSpace(rest + t)).Done? && Arguments((word + rest) + t).Done?
    ensures Arguments((word + rest) + t).value == Pair(word, Argument(SkipSpace(rest + t)).value)
  {
    Assoc(word, rest, t);
    SpaceBefore(rest + t);
    WordTakesMore(word, k, rest + t);
  }

  // ---------------------------------------------------------------- one argument

  lemma WholeArgument(s: string)
    requires Argument(s).Done? && Argument(s).value == s
    ensures '\n' !in s
  {
  }

  lemma WholeLone(s: string)
    requires Arguments(s).Done? && Arguments(s).value.Single? && |Arguments(s).value.text| >= |s|
    ensures Arguments(s).value.text == s && OneLine(s)
  {
  }

  lemma LoneNeeds(v: string)
    requires v != "" && !IsSpace(v[0]) && '\n' !in v
    requires var p := Arguments(v + Closer(v));
             p.Done? && p.value.Single? && (p.value.text == v || Trim(p.value.text) == v)
    ensures Unquoted(v)
  {
    if !Unquoted(v) {
      CloserBreaks(v);
    }
  }

  // ---------------------------------------------------------------- one line

  lemma SpaceFirst(s: string)
    ensures SkipSpace(" " + s) == SkipSpace(s)
  {
    assert (" " + s)[1..] == s;
  }

  /** After the tag of a call, its arguments are read. */
  lemma ReadTag(c: Call, t: string)
    ensures ParseCommand(Line(c) + t)
         == var p := Arguments(SkipSpace(Rest(c, t)));
            if p.Done? then Done(Command(TagOf(c), p.value), p.rest) else Fail
  {
    TagIs(c);
    LineForm(c, t);
    InstructionFound(TagOf(c), " " + Rest(c, t), TagIndex(c));
    SpaceFirst(Rest(c, t));
    assert (Line(c) + t)[0] == TagOf(c)[0];
  }

  lemma LoneCall(c: Call, o: Output)
    requires !c.Param? && !c.Chat? && CallOf(Command(TagOf(c), o)) == Some(c)
    ensures if c.Comment? then Show(o) == c.value else o.Single? && Trim(o.text) == c.value
  {
    TagIs(c);
  }

  lemma PairCall(c: Call, o: Output)
    requires (c.Param? || c.Chat?) && CallOf(Command(TagOf(c), o)) == Some(c)
    ensures o.Pair? && Trim(o.text) == c.value
  {
    TagIs(c);
  }

  /** What a line that stands last tells of a lone value. */
  lemma LoneLast(c: Call)
    requires !c.Param? && !c.Chat? && ReadsAs(c, "")
    requires Arguments(SkipSpace(c.value)).Done? ==> Arguments(SkipSpace(c.value)).value.Single?
    ensures OneLine(c.value) && (!c.Comment? ==> Trimmed(c.value))
  {
    var v := c.value;
    ReadTag(c, "");
    assert v + "" == v;
    LoneCall(c, Arguments(SkipSpace(v)).value);
    WholeLone(SkipSpace(v));
  }

  lemma LoneFollowed(c: Call, t: string)
    requires !c.Param? && !c.Chat? && OneLine(c.value) && ReadsAs(c, t)
    ensures Arguments(c.value + t).Done?
    ensures var o := Arguments(c.value + t).value;
            if c.Comment? then Show(o) == c.value else o.Single? && Trim(o.text) == c.value
  {
    ReadTag(c, t);
    assert (c.value + t)[0] == c.value[0];
    LoneCall(c, Arguments(c.value + t).value);
  }

  lemma LoneUnquoted(c: Call)
    requires !c.Param? && !c.Chat? && OneLine(c.value) && ReadBack(c)
    requires Arguments(c.value + Closer(c.value)).Done? ==> Arguments(c.value + Closer(c.value)).value.Single?
    ensures Unquoted(c.value)
  {
    assert LineEnd(Closer(c.value)) && ReadsAs(c, Closer(c.value));
    LoneFollowed(c, Closer(c.value));
    LoneNeeds(c.value);
  }

  lemma NotLone(c: Call, word: string, k: nat, rest: string)
    requires !c.Param? && !c.Chat? && !c.Comment? && OneLine(c.value) && ReadBack(c)
    requires k < |WORDS| && Lower(word) == WORDS[k]
    ensures c.value != word + rest
  {
    assert LineEnd(MORE) && ReadsAs(c, MORE);
    LoneFollowed(c, MORE);
    WordTakes(word, k, rest, MORE);
  }

  lemma LoneNoWord(c: Call)
    requires !c.Param? && !c.Chat? && !c.Comment? && OneLine(c.value) && ReadBack(c)
    ensures !StartsWithWord(c.value)
  {
    var v := c.value;
    if StartsWithWord(v) {
      var k :| 0 <= k < |WORDS| && StartsWith(v, WORDS[k]);
      NotLone(c, v[..|WORDS[k]|], k, v[|WORDS[k]|..]);
    }
  }

  lemma LoneSingle(c: Call, t: string)
    requires !c.Param? && !c.Chat? && !c.Comment? && ReadsAs(c, t)
    ensures var p := Arguments(SkipSpace(c.value + t)); p.Done? && p.value.Single?
  {
    ReadTag(c, t);
    LoneCall(c, Arguments(SkipSpace(c.value + t)).value);
  }

  lemma LoneNeedsPlain(c: Call)
    requires !c.Param? && !c.Chat? && !c.Comment? && ReadBack(c)
    ensures PlainCall(c)
  {
    assert LineEnd("") && ReadsAs(c, "");
    LoneSingle(c, "");
    assert c.value + "" == c.value;
    LoneLast(c);
    assert LineEnd(Closer(c.value)) && ReadsAs(c, Closer(c.value));
    LoneSingle(c, Closer(c.value));
    LoneUnquoted(c);
    LoneNoWord(c);
  }

  /** After a known word the argument is the next text, whatever it is. */
  lemma WordThen(name: string, k: nat, w: string)
    requires k < |WORDS| && Lower(name) == WORDS[k]
    ensures var p := Arguments(name + (" " + w));
            p.Done? && p.value.Pair? ==> Argument(SkipSpace(w)).Done? && Argument(SkipSpace(w)).value == p.value.text
    ensures SkipSpace(name + (" " + w)) == name + (" " + w)
  {
    WordThere(name, k, " " + w);
    SpaceFirst(w);
    NoQuoteFirst(name + (" " + w));
  }

  lemma PairFollowed(c: Call, t: string, floats: Floats)
    requires (c.Param? || c.Chat?) && Accepted(c, floats) && ReadsAs(c, t)
    ensures var p := Argument(SkipSpace(c.value + t)); p.Done? && Trim(p.value) == c.value
  {
    var k := KnownWord(c, floats);
    WordThen(c.name, k, c.value + t);
    ReadTag(c, t);
    PairCall(c, Arguments(Rest(c, t)).value);
  }

  lemma PairNeedsPlain(c: Call, floats: Floats)
    requires (c.Param? || c.Chat?) && Accepted(c, floats) && ReadBack(c)
    ensures PlainCall(c)
  {
    var v := c.value;
    assert ReadsAs(c, "");
    PairFollowed(c, "", floats);
    assert v + "" == v;
    WholeArgument(SkipSpace(v));
    assert v[0] == (v + Closer(v))[0];
    assert ReadsAs(c, Closer(v));
    PairFollowed(c, Closer(v), floats);
    if !Unquoted(v) {
      CloserBreaks(v);
    }
  }

  lemma PairParts(s: string) returns (k: nat, rest: string)
    requires Arguments(s).Done? && Arguments(s).value.Pair?
    ensures k < |WORDS| && Lower(Arguments(s).value.word) == WORDS[k]
    ensures SkipSpace(s) == Arguments(s).value.word + rest
    ensures Argument(SkipSpace(rest)).Done? && Argument(SkipSpace(rest)).value == Arguments(s).value.text
  {
    var found := AnyTag(SkipSpace(s), WORDS);
    k :| 0 <= k < |WORDS| && Lower(found.value) == WORDS[k];
    rest := found.rest;
  }

  lemma WordChars(word: string, k: nat)
    requires k < |WORDS| && Lower(word) == WORDS[k]
    ensures word != "" && !IsSpace(word[0]) && word[0] != '"' && '\n' !in word
  {
    WordStart(k);
    assert Lower(word)[0] == LowerChar(word[0]);
    forall i | 0 <= i < |word| ensures word[i] != '\n' {
      assert Lower(word)[i] == LowerChar(word[i]);
      NoSpaceInWords(k, i);
    }
  }

  lemma CommentPairLast(v: string)
    requires Arguments(SkipSpace(v)).Done? && Arguments(SkipSpace(v)).value.Pair?
    requires Show(Arguments(SkipSpace(v)).value) == v
    ensures OneLine(v)
  {
    var k, rest := PairParts(SkipSpace(v));
    var word, x := Arguments(SkipSpace(v)).value.word, Arguments(SkipSpace(v)).value.text;
    WordChars(word, k);
    PairLine(v, word, rest, x);
  }

  lemma PairLine(v: string, word: string, rest: string, x: string)
    requires v == word + " " + x && SkipSpace(v) == word + rest
    requires word != "" && !IsSpace(word[0]) && '\n' !in word
    requires Argument(SkipSpace(rest)).Done? && Argument(SkipSpace(rest)).value == x
    ensures OneLine(v)
  {
    assert v[0] == word[0];
    Assoc(word, " ", x);
    Cancel(word, rest, " " + x);
    SpaceFirst(x);
    WholeArgument(SkipSpace(x));
    BreakFree(word, x);
  }

  lemma BreakFree(word: string, x: string)
    requires '\n' !in word && '\n' !in x
    ensures '\n' !in word + " " + x && '\n' !in word + (" " + x)
  {
  }

  lemma SkipsFirst(s: string)
    ensures s != "" && IsSpace(s[0]) ==> |SkipSpace(s)| < |s|
  {
  }

  lemma SpacedText(x: string)
    requires x != "" && Argument(SkipSpace(x + MORE)).Done? && Argument(SkipSpace(x + MORE)).value == x
    ensures !IsSpace(x[0])
  {
    SkipsFirst(x + MORE);
    LineOrShorter(SkipSpace(x + MORE));
  }

  lemma LineOrShorter(s: string)
    requires Argument(s).Done?
    ensures |Argument(s).value| <= |s| - 2 || !IsSpace(Argument(s).value[0])
  {
  }

  /** What a line followed by others tells of a comment that starts with a word: the rest is
      a space and the argument. */
  lemma WordComment(c: Call, word: string, k: nat, rest: string, t: string) returns (x: string)
    requires c.Comment? && OneLine(c.value) && ReadsAs(c, t) && t != "" && !IsSpace(t[|t| - 1])
    requires k < |WORDS| && Lower(word) == WORDS[k] && c.value == word + rest
    ensures x != "" && rest == " " + x
    ensures Argument(SkipSpace(x + t)).Done? && Argument(SkipSpace(x + t)).value == x
  {
    WordTakes(word, k, rest, t);
    LoneFollowed(c, t);
    x := Argument(SkipSpace(rest + t)).value;
    SameRest(c.value, word, rest, x, t);
  }

  lemma SameRest(v: string, word: string, rest: string, x: string, t: string)
    requires v == word + rest && v == word + " " + x && x != ""
    ensures rest == " " + x
    ensures SkipSpace(rest + t) == SkipSpace(x + t)
  {
    Assoc(word, " ", x);
    Cancel(word, rest, " " + x);
    Assoc(" ", x, t);
    SpaceFirst(x + t);
  }

  lemma CommentSpaced(c: Call, word: string, k: nat, rest: string)
    requires c.Comment? && OneLine(c.value) && ReadBack(c)
    requires k < |WORDS| && Lower(word) == WORDS[k] && c.value == word + rest
    ensures Spaced(rest)
  {
    assert ReadsAs(c, MORE);
    var x := WordComment(c, word, k, rest, MORE);
    SpacedText(x);
    assert '\n' !in x by {
      assert '\n' in x ==> '\n' in c.value;
    }
    CommentRest(c, word, k, rest, x);
  }

  lemma CommentRest(c: Call, word: string, k: nat, rest: string, x: string)
    requires c.Comment? && OneLine(c.value) && ReadBack(c)
    requires k < |WORDS| && Lower(word) == WORDS[k] && c.value == word + rest
    requires rest == " " + x && x != "" && !IsSpace(x[0])
    ensures Unquoted(x)
  {
    assert ReadsAs(c, Closer(x));
    var again := WordComment(c, word, k, rest, Closer(x));
    Cancel(" ", x, again);
    assert (x + Closer(x))[0] == x[0];
    if !Unquoted(x) {
      CloserBreaks(x);
    }
  }

  lemma CommentNeedsPlain(c: Call)
    requires c.Comment? && ReadBack(c)
    ensures PlainCall(c)
  {
    var v := c.value;
    assert ReadsAs(c, "");
    ReadTag(c, "");
    assert v + "" == v;
    LoneCall(c, Arguments(SkipSpace(v)).value);
    if Arguments(SkipSpace(v)).value.Pair? {
      CommentPairLast(v);
    } else {
      LoneLast(c);
    }
    CommentUnquoted(c);
    CommentWord(c);
  }

  lemma CommentWord(c: Call)
    requires c.Comment? && OneLine(c.value) && ReadBack(c)
    ensures WordSpaced(c.value)
  {
    var v := c.value;
    forall k | 0 <= k < |WORDS| && StartsWith(v, WORDS[k]) ensures Spaced(v[|WORDS[k]|..]) {
      var n := |WORDS[k]|;
      CommentSpaced(c, v[..n], k, v[n..]);
    }
  }

  lemma CommentUnquoted(c: Call)
    requires c.Comment? && OneLine(c.value) && ReadBack(c)
    ensures Unquoted(c.value)
  {
    var s := c.value + Closer(c.value);
    assert s[0] == c.value[0];
    if Arguments(s).Done? && Arguments(s).value.Pair? {
      var k, rest := PairParts(s);
      WordChars(Arguments(s).value.word, k);
    } else {
      LoneUnquoted(c);
    }
  }

  /** A line is read back as the call that made it, whatever other lines follow, exactly
      when the values of the call are plain. */
  lemma PlainExactly(c: Call, floats: Floats)
    requires Accepted(c, floats)
    ensures PlainCall(c) <==> ReadBack(c)
  {
    if PlainCall(c) {
      forall t | LineEnd(t) ensures ReadsAs(c, t) {
        ReadLine(c, t, floats);
        CallForLine(c);
      }
    }
    if ReadBack(c) {
      if c.Param? || c.Chat? {
        PairNeedsPlain(c, floats);
      } else if c.Comment? {
        CommentNeedsPlain(c);
      } else {
        LoneNeedsPlain(c);
      }
    }
  }
}
