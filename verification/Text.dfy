/** String operations the readers and the Modelfile parser share. */
module Text {
  import opened Prelude

  // ---------------------------------------------------------------- searching

  predicate At(s: string, pat: string, i: int) {
    0 <= i && i + |pat| <= |s| && s[i..i + |pat|] == pat
  }

  predicate Occurs(s: string, pat: string) {
    exists i :: 0 <= i <= |s| && At(s, pat, i)
  }

  function IndexFrom(s: string, pat: string, i: nat): (r: Option<nat>)
    requires i <= |s|
    ensures r.Some? ==> i <= r.value && At(s, pat, r.value) && forall j :: i <= j < r.value ==> !At(s, pat, j)
    ensures r.None? ==> forall j :: i <= j ==> !At(s, pat, j)
    decreases |s| - i
  {
    if At(s, pat, i) then Some(i)
    else if i == |s| then None
    else IndexFrom(s, pat, i + 1)
  }

  /** The first place `pat` is found at. */
  function IndexOf(s: string, pat: string): (r: Option<nat>)
    ensures r.Some? ==> At(s, pat, r.value) && forall j :: 0 <= j < r.value ==> !At(s, pat, j)
    ensures r.None? <==> !Occurs(s, pat)
  {
    IndexFrom(s, pat, 0)
  }

  lemma AtPrefix(s: string, t: string, pat: string, i: int)
    requires i + |pat| <= |s|
    ensures At(s + t, pat, i) <==> At(s, pat, i)
  {
    if 0 <= i {
      assert (s + t)[i..i + |pat|] == s[i..i + |pat|];
    }
  }

  /** What is found in a text is found at the same place when more text follows. */
  lemma IndexOfLonger(s: string, t: string, pat: string)
    requires IndexOf(s, pat).Some?
    ensures IndexOf(s + t, pat) == IndexOf(s, pat)
  {
    var i := IndexOf(s, pat).value;
    AtPrefix(s, t, pat, i);
    forall j | 0 <= j < i ensures !At(s + t, pat, j) {
      AtPrefix(s, t, pat, j);
    }
    assert Occurs(s + t, pat);
    var k := IndexOf(s + t, pat).value;
    assert k <= i;
  }

  /** The last place of a character, -1 without it. */
  function LastIndex(s: string, c: char): (i: int)
    ensures -1 <= i < |s| && (i >= 0 ==> s[i] == c)
    ensures forall j :: i < j < |s| ==> s[j] != c
  {
    LastBefore(s, c, |s|)
  }

  function LastBefore(s: string, c: char, n: nat): (i: int)
    requires n <= |s|
    ensures -1 <= i < n && (i >= 0 ==> s[i] == c)
    ensures forall j :: i < j < n ==> s[j] != c
  {
    if n == 0 then -1
    else if s[n - 1] == c then n - 1
    else LastBefore(s, c, n - 1)
  }

  // ---------------------------------------------------------------- pieces

  lemma Assoc(a: string, b: string, c: string)
    ensures (a + b) + c == a + (b + c)
  {
  }

  lemma Cancel(a: string, b: string, c: string)
    requires a + b == a + c
    ensures b == c
  {
    assert (a + b)[|a|..] == b && (a + c)[|a|..] == c;
  }

  function Concat(pieces: seq<string>): string {
    if pieces == [] then "" else pieces[0] + Concat(pieces[1..])
  }

  lemma {:induction false} ConcatAppend(a: seq<string>, b: seq<string>)
    ensures Concat(a + b) == Concat(a) + Concat(b)
  {
    if a == [] {
      assert a + b == b;
    } else {
      assert (a + b)[1..] == a[1..] + b;
      ConcatAppend(a[1..], b);
    }
  }

  lemma ConcatNext(pieces: seq<string>, i: nat)
    requires i < |pieces|
    ensures Concat(pieces[..i + 1]) == Concat(pieces[..i]) + pieces[i]
  {
    assert pieces[..i + 1] == pieces[..i] + [pieces[i]];
    ConcatAppend(pieces[..i], [pieces[i]]);
    assert [pieces[i]][1..] == [];
  }

  // ---------------------------------------------------------------- numbers

  predicate Digits(s: string) {
    forall i :: 0 <= i < |s| ==> '0' <= s[i] <= '9'
  }

  function Digit(c: char): int {
    c as int - '0' as int
  }

  function Number(s: string): int {
    if s == "" then 0 else 10 * Number(s[..|s| - 1]) + Digit(s[|s| - 1])
  }

  /** A number as it is usually written. */
  function Decimal(n: nat): string {
    if n < 10 then [('0' as int + n) as char] else Decimal(n / 10) + [('0' as int + n % 10) as char]
  }

  lemma {:induction false} DecimalRead(n: nat)
    ensures Decimal(n) != "" && Digits(Decimal(n)) && Number(Decimal(n)) == n
  {
    var s := Decimal(n);
    if n >= 10 {
      DecimalRead(n / 10);
      assert s[..|s| - 1] == Decimal(n / 10);
    } else {
      assert s[..0] == "" && Number("") == 0;
    }
  }

  // ---------------------------------------------------------------- space

  /** What `multispace0` skips. */
  predicate IsSpace(c: char) {
    c == ' ' || c == '\t' || c == '\r' || c == '\n'
  }

  function SkipSpace(s: string): (r: string)
    ensures |r| <= |s| && (|r| == |s| ==> r == s) && (r == "" || !IsSpace(r[0]))
    ensures s != "" && !IsSpace(s[0]) ==> r == s
  {
    if s != "" && IsSpace(s[0]) then SkipSpace(s[1..]) else s
  }

  /** What `trim` removes: the characters with the property White_Space. */
  predicate IsWhite(c: char) {
    || '\U{0009}' <= c <= '\U{000D}' || c == ' ' || c == '\U{0085}' || c == '\U{00A0}' || c == '\U{1680}'
    || '\U{2000}' <= c <= '\U{200A}' || c == '\U{2028}' || c == '\U{2029}' || c == '\U{202F}'
    || c == '\U{205F}' || c == '\U{3000}'
  }

  predicate Trimmed(s: string) {
    s == "" || (!IsWhite(s[0]) && !IsWhite(s[|s| - 1]))
  }

  function TrimStart(s: string): (r: string)
    ensures |r| <= |s| && (|r| == |s| ==> r == s) && (r == "" || !IsWhite(r[0]))
    ensures s == "" || !IsWhite(s[0]) ==> r == s
  {
    if s != "" && IsWhite(s[0]) then TrimStart(s[1..]) else s
  }

  function TrimEnd(s: string): (r: string)
    ensures |r| <= |s| && r == s[..|r|] && (r == "" || !IsWhite(r[|r| - 1]))
    ensures s == "" || !IsWhite(s[|s| - 1]) ==> r == s
  {
    if s != "" && IsWhite(s[|s| - 1]) then TrimEnd(s[..|s| - 1]) else s
  }

  function Trim(s: string): (r: string)
    ensures |r| <= |s| && Trimmed(r)
    ensures Trimmed(s) || |r| == |s| ==> r == s
  {
    TrimEnd(TrimStart(s))
  }

  predicate AllWhite(s: string) {
    forall i :: 0 <= i < |s| ==> IsWhite(s[i])
  }

  lemma {:induction false} TrimStartMeaning(s: string) returns (n: nat)
    ensures n <= |s| && TrimStart(s) == s[n..] && AllWhite(s[..n])
  {
    n := 0;
    if s != "" && IsWhite(s[0]) {
      var m := TrimStartMeaning(s[1..]);
      n := m + 1;
      assert s[1..][m..] == s[n..] && s[..n] == [s[0]] + s[1..][..m];
    }
  }

  lemma {:induction false} TrimEndMeaning(s: string)
    ensures AllWhite(s[|TrimEnd(s)|..])
  {
    if s != "" && IsWhite(s[|s| - 1]) {
      var init := s[..|s| - 1];
      TrimEndMeaning(init);
      assert s[|TrimEnd(s)|..] == init[|TrimEnd(init)|..] + [s[|s| - 1]];
    }
  }

  /** Trimming takes white space off both ends, and nothing else. */
  lemma TrimMeaning(s: string) returns (left: string, right: string)
    ensures s == left + Trim(s) + right && AllWhite(left) && AllWhite(right)
    ensures Trimmed(Trim(s))
  {
    var n := TrimStartMeaning(s);
    var rest := TrimStart(s);
    TrimEndMeaning(rest);
    left, right := s[..n], rest[|TrimEnd(rest)|..];
    assert rest == TrimEnd(rest) + right;
  }

  /** What Python's `strip` removes: a few separators more than `trim`. */
  predicate IsBlank(c: char) {
    IsWhite(c) || '\U{001C}' <= c <= '\U{001F}'
  }

  function LeftStrip(s: string): (r: string)
    ensures |r| <= |s| && (r == "" || !IsBlank(r[0]))
    ensures r == "" <==> forall i :: 0 <= i < |s| ==> IsBlank(s[i])
  {
    if s != "" && IsBlank(s[0]) then LeftStrip(s[1..]) else s
  }

  lemma {:induction false} LeftStripMeaning(s: string) returns (n: nat)
    ensures n <= |s| && LeftStrip(s) == s[n..] && forall i :: 0 <= i < n ==> IsBlank(s[i])
  {
    n := 0;
    if s != "" && IsBlank(s[0]) {
      var m := LeftStripMeaning(s[1..]);
      n := m + 1;
      assert s[1..][m..] == s[n..];
      assert forall i :: 0 < i < n ==> s[i] == s[1..][i - 1];
    }
  }

  // ---------------------------------------------------------------- case and lines

  /** Lower case of the ASCII letters, the only ones the tags are made of. */
  function LowerChar(c: char): char {
    if 'A' <= c <= 'Z' then (c as int + 32) as char else c
  }

  function Lower(s: string): (r: string)
    ensures |r| == |s| && forall i :: 0 <= i < |s| ==> r[i] == LowerChar(s[i])
  {
    seq(|s|, i requires 0 <= i < |s| => LowerChar(s[i]))
  }

  /** Lines put together with a line break between them. */
  function Join(lines: seq<string>): string {
    if lines == [] then ""
    else if |lines| == 1 then lines[0]
    else lines[0] + "\n" + Join(lines[1..])
  }

  /** Length of the first line. */
  function LineLength(s: string): (n: nat)
    ensures n <= |s| && (forall i :: 0 <= i < n ==> s[i] != '\n') && (n < |s| ==> s[n] == '\n')
  {
    if s == "" || s[0] == '\n' then 0 else 1 + LineLength(s[1..])
  }

  /** Nothing, or a line break. */
  predicate LineEnd(t: string) {
    t == "" || t[0] == '\n'
  }

  lemma {:induction false} LineLengthIs(v: string, t: string)
    requires '\n' !in v && LineEnd(t)
    ensures LineLength(v + t) == |v|
  {
    if v == "" {
      assert v + t == t;
    } else {
      assert v[0] in v && (v + t)[1..] == v[1..] + t;
      LineLengthIs(v[1..], t);
    }
  }
}
