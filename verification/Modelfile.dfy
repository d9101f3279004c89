/** The roles of a message, as text and back. */
module Roles {
  import opened Prelude
  import opened Text

  datatype Role = System | User | Assistant | Developer | ToolResult

  function RoleText(role: Role): string {
    match role
    case System => "system"
    case User => "user"
    case Assistant => "assistant"
    case Developer => "developer"
    case ToolResult => "toolResult"
  }

  function RoleFromText(s: string): Option<Role> {
    var name := Lower(s);
    if name == "system" then Some(System)
    else if name == "user" then Some(User)
    else if name == "assistant" then Some(Assistant)
    else None
  }

  /** Two roles have a text that cannot be read back. */
  lemma RoleReadBack(role: Role)
    ensures RoleFromText(RoleText(role)) == if role.Developer? || role.ToolResult? then None else Some(role)
  {
    var s := RoleText(role);
    assert Lower(s)[0] == LowerChar(s[0]) && Lower(s)[1] == LowerChar(s[1]);
    if role.System? || role.User? || role.Assistant? {
      assert Lower(s) == s;
    }
  }
}

/** Modelfiles: the parser with its ordered alternatives, the builder, the printer. */
module Modelfiles {
  import opened Prelude
  import opened Text
  import opened Roles

  // ---------------------------------------------------------------- the parser

  datatype Parsed<+T> = Fail | Done(value: T, rest: string)

  datatype Output = Single(text: string) | Pair(word: string, text: string)

  datatype Command = Command(instruction: string, output: Output)

  const TRIPLE := ['"', '"', '"']

  const QUOTE := ['"']

  const INSTRUCTIONS := ["from", "parameter", "template", "system", "adapter", "license", "message", "#"]

  const WORDS := ["stop", "num_ctx", "repeat_last_n", "temperature", "seed", "top_k", "top_p", "min_p",
                  "num_predict", "repeat_penalty", "user", "assistant", "system"]

  /** `tag_no_case` of a tag in lower case. */
  predicate StartsWith(s: string, tag: string) {
    |tag| <= |s| && Lower(s[..|tag|]) == tag
  }

  /** `alt` over tags: the first that fits. */
  function AnyTag(s: string, tags: seq<string>): (r: Parsed<string>)
    ensures r.Done? ==> s == r.value + r.rest && Lower(r.value) in tags
    ensures r.Fail? <==> forall i :: 0 <= i < |tags| ==> !StartsWith(s, tags[i])
  {
    if tags == [] then Fail
    else if StartsWith(s, tags[0]) then Done(s[..|tags[0]|], s[|tags[0]|..])
    else AnyTag(s, tags[1..])
  }

  /** Text up to the same quote again, at least one character of it. */
  function Quoted(s: string, quote: string): (r: Parsed<string>)
    ensures r.Done? ==> |r.rest| <= |s| && s == quote + r.value + quote + r.rest && r.value != ""
  {
    if |quote| <= |s| && s[..|quote|] == quote then
      var body := s[|quote|..];
      match IndexOf(body, quote)
      case Some(i) => if i == 0 then Fail else Done(body[..i], body[i + |quote|..])
      case None => Fail
    else Fail
  }

  function SingleLine(s: string): (r: Parsed<string>)
    ensures r.Done? ==> |r.rest| <= |s| && r.value != "" && '\n' !in r.value
  {
    var t := SkipSpace(s);
    var n := LineLength(t);
    if n == 0 then Fail else Done(t[..n], SkipSpace(t[n..]))
  }

  /** Between two quotes, the second being the first that comes after the text has begun. */
  predicate QuotedText(s: string, quote: string, v: string, rest: string) {
    && s == quote + v + quote + rest && v != ""
    && forall j :: 0 <= j < |v| ==> !At(v + quote + rest, quote, j)
  }

  lemma QuotedFinds(s: string, quote: string, v: string, rest: string)
    requires QuotedText(s, quote, v, rest)
    ensures Quoted(s, quote) == Done(v, rest)
  {
    var body := v + quote + rest;
    assert s == quote + body;
    assert s[..|quote|] == quote && s[|quote|..] == body;
    assert body[|v|..|v| + |quote|] == quote && At(body, quote, |v|);
    assert Occurs(body, quote);
    assert IndexOf(body, quote) == Some(|v|);
    assert body[..|v|] == v && body[|v| + |quote|..] == rest;
  }

  /** A quoted text is found exactly where there is one. */
  lemma QuotedExactly(s: string, quote: string)
    ensures forall v, rest :: QuotedText(s, quote, v, rest) <==> Quoted(s, quote) == Done(v, rest)
  {
    forall v, rest ensures QuotedText(s, quote, v, rest) <==> Quoted(s, quote) == Done(v, rest) {
      if QuotedText(s, quote, v, rest) {
        QuotedFinds(s, quote, v, rest);
      }
      if Quoted(s, quote) == Done(v, rest) {
        assert s[|quote|..] == v + quote + rest;
      }
    }
  }

  predicate AllSpace(s: string) {
    forall i :: 0 <= i < |s| ==> IsSpace(s[i])
  }

  lemma {:induction false} SpaceSkipped(lead: string, s: string)
    requires AllSpace(lead) && (s == "" || !IsSpace(s[0]))
    ensures SkipSpace(lead + s) == s
  {
    if lead == "" {
      assert lead + s == s;
    } else {
      assert (lead + s)[1..] == lead[1..] + s;
      SpaceSkipped(lead[1..], s);
    }
  }

  /** The whole line behind its leading space, and the space after it is skipped. */
  lemma SingleLineExactly(lead: string, line: string, rest: string)
    requires AllSpace(lead) && '\n' !in line && (line == "" ==> rest == "") && LineEnd(rest)
    requires line != "" ==> !IsSpace(line[0])
    ensures SingleLine(lead + (line + rest)) == if line == "" then Fail else Done(line, SkipSpace(rest))
  {
    SpaceSkipped(lead, line + rest);
    LineLengthIs(line, rest);
    assert (line + rest)[..|line|] == line && (line + rest)[|line|..] == rest;
  }

  function Argument(s: string): (r: Parsed<string>)
    ensures r.Done? ==> |r.rest| <= |s| && 0 < |r.value| <= |s|
  {
    var multi := Quoted(s, TRIPLE);
    if multi.Done? then multi
    else
      var single := Quoted(s, QUOTE);
      if single.Done? then single else SingleLine(s)
  }

  function WordArgument(s: string): (r: Parsed<Output>)
    ensures r.Done? ==> |r.rest| <= |s|
  {
    match AnyTag(SkipSpace(s), WORDS)
    case Fail => Fail
    case Done(word, rest) =>
      match Argument(SkipSpace(rest))
      case Fail => Fail
      case Done(text, rest') => Done(Pair(word, text), rest')
  }

  function AsSingle(p: Parsed<string>): Parsed<Output> {
    if p.Done? then Done(Single(p.value), p.rest) else Fail
  }

  function Arguments(s: string): (r: Parsed<Output>)
    ensures r.Done? ==> |r.rest| <= |s|
  {
    var multi := Quoted(s, TRIPLE);
    var single := Quoted(s, QUOTE);
    if multi.Done? then AsSingle(multi)
    else if single.Done? then AsSingle(single)
    else
      var pair := WordArgument(s);
      if pair.Done? then pair else AsSingle(SingleLine(s))
  }

  /** Every command uses up text, so parsing ends on every input. */
  function ParseCommand(s: string): (r: Parsed<Command>)
    ensures r.Done? ==> |r.rest| < |s|
  {
    var t := SkipSpace(s);
    match AnyTag(t, INSTRUCTIONS)
    case Fail => Fail
    case Done(instruction, rest) =>
      InstructionNotEmpty(instruction);
      match Arguments(SkipSpace(rest))
      case Fail => Fail
      case Done(output, rest') => Done(Command(instruction, output), rest')
  }

  lemma InstructionNotEmpty(instruction: string)
    requires Lower(instruction) in INSTRUCTIONS
    ensures instruction != ""
  {
    assert forall i :: 0 <= i < |INSTRUCTIONS| ==> INSTRUCTIONS[i] != "";
  }

  /** Commands after the first, up to the first text that is none. */
  function ParseRest(s: string): Parsed<seq<Command>>
    decreases |s|
  {
    match ParseCommand(SkipSpace(s))
    case Fail => Done([], s)
    case Done(c, rest) =>
      var more := ParseRest(rest);
      Done([c] + more.value, more.rest)
  }

  function ParseFile(s: string): Parsed<seq<Command>> {
    match ParseCommand(s)
    case Fail => Fail
    case Done(c, rest) =>
      var more := ParseRest(rest);
      Done([c] + more.value, more.rest)
  }

  // ---------------------------------------------------------------- values

  /** What can be wrong with a call or a command. */
  datatype Error =
    | Second(instruction: string)
    | NotInteger(kind: string)
    | NotFloat(kind: string)
    | UnknownParameter
    | NotRole(role: string)
    | Invalid(instruction: string, command: string)
    | NoFrom

  function ErrorText(e: Error): string {
    match e
    case Second(instruction) => "Modelfile can only have one " + instruction + " instruction"
    case NotInteger(kind) => kind + " not an Integer"
    case NotFloat(kind) => kind + " not a Float"
    case UnknownParameter => "Invalid Parameter type"
    case NotRole(role) => role + " not a valid role"
    case Invalid(instruction, command) =>
      "Invalid instruction Instruction: `" + instruction + "` command: `" + command + "`"
    case NoFrom => "Modelfile must need a FROM instruction"
  }

  /** A float stands for its 32 bits. */
  datatype ParamValue = Int(i: int) | Float(bits: int) | Str(s: string)

  datatype Parameter = Parameter(paramType: string, value: ParamValue)

  datatype Message = Message(role: Role, message: string)

  /** `str::parse::<f32>`, which this model does not look into. */
  type Floats = string -> Option<int>

  /** `str::parse::<i32>`: one sign at most, digits, and a value of 32 bits. */
  function ParseI32(s: string): Option<int> {
    var signed := s != "" && (s[0] == '+' || s[0] == '-');
    var digits := if signed then s[1..] else s;
    if digits == "" || !Digits(digits) then None
    else
      var n := if signed && s[0] == '-' then -Number(digits) else Number(digits);
      if -0x8000_0000 <= n < 0x8000_0000 then Some(n) else None
  }

  /** Of the usual notations exactly those of 32 bits are numbers. */
  lemma ParseI32Exactly(n: int)
    ensures ParseI32(if n < 0 then ['-'] + Decimal(-n) else Decimal(n))
         == if -0x8000_0000 <= n < 0x8000_0000 then Some(n) else None
  {
    if n < 0 {
      DecimalRead(-n);
      assert (['-'] + Decimal(-n))[1..] == Decimal(-n);
    } else {
      DecimalRead(n);
    }
  }

  function ParseParameter(name: string, argument: string, floats: Floats): Result<Parameter, Error> {
    var kind := Lower(name);
    if kind == "num_ctx" || kind == "repeat_last_n" || kind == "seed" || kind == "num_predict" || kind == "top_k" then
      match ParseI32(argument)
      case Some(i) => Ok(Parameter(kind, Int(i)))
      case None => Err(NotInteger(kind))
    else if kind == "repeat_penalty" || kind == "temperature" || kind == "top_p" || kind == "min_p" then
      match floats(argument)
      case Some(f) => Ok(Parameter(kind, Float(f)))
      case None => Err(NotFloat(kind))
    else if kind == "stop" then Ok(Parameter(kind, Str(argument)))
    else Err(UnknownParameter)
  }

  function ParseMessage(role: string, message: string): Result<Message, Error> {
    match RoleFromText(Lower(role))
    case Some(r) => Ok(Message(r, message))
    case None => Err(NotRole(Lower(role)))
  }

  const WHOLE_KINDS := ["num_ctx", "repeat_last_n", "seed", "num_predict", "top_k"]

  const FLOAT_KINDS := ["repeat_penalty", "temperature", "top_p", "min_p"]

  const SPEAKERS := ["system", "user", "assistant"]

  /** The kind is known, and the value is one of it. */
  predicate Fits(name: string, value: string, floats: Floats) {
    || (Lower(name) in WHOLE_KINDS && ParseI32(value).Some?)
    || (Lower(name) in FLOAT_KINDS && floats(value).Some?)
    || Lower(name) == "stop"
  }

  predicate IsParameter(p: Parameter, name: string, value: string, floats: Floats) {
    && p.paramType == Lower(name)
    && match p.value
       case Int(i) => Lower(name) in WHOLE_KINDS && ParseI32(value) == Some(i)
       case Float(bits) => Lower(name) in FLOAT_KINDS && floats(value) == Some(bits)
       case Str(text) => Lower(name) == "stop" && text == value
  }

  predicate IsMessage(m: Message, role: string, text: string) {
    RoleText(m.role) == Lower(role) && m.message == text
  }

  /** A parameter is read exactly when its value fits, and for what it is. */
  lemma ParameterMeaning(name: string, value: string, floats: Floats)
    ensures ParseParameter(name, value, floats).Ok? <==> Fits(name, value, floats)
    ensures ParseParameter(name, value, floats).Ok? ==>
              IsParameter(ParseParameter(name, value, floats).value, name, value, floats)
  {
  }

  /** A message is read exactly for three roles, whatever their case. */
  lemma MessageMeaning(role: string, text: string)
    ensures ParseMessage(role, text).Ok? <==> Lower(role) in SPEAKERS
    ensures ParseMessage(role, text).Ok? ==> IsMessage(ParseMessage(role, text).value, role, text)
  {
    assert Lower(Lower(role)) == Lower(role);
  }

  function SplitModelSpec(spec: string): (string, Option<string>) {
    var i := LastIndex(spec, ':');
    if 0 < i < |spec| - 1 then (spec[..i], Some(spec[i + 1..])) else (spec, None)
  }

  /** Splits a FROM value at its last colon, unless one side would be empty. */
  lemma SplitMeaning(spec: string)
    ensures var (repo, quant) := SplitModelSpec(spec);
            if quant.Some? then
              spec == repo + ":" + quant.value && repo != "" && quant.value != "" && ':' !in quant.value
            else repo == spec && forall i :: 0 < i < |spec| - 1 && spec[i] == ':' ==> spec[|spec| - 1] == ':'
  {
    var i := LastIndex(spec, ':');
    if 0 < i < |spec| - 1 {
      assert spec[i..i + 1] == ":";
    }
  }

  // ---------------------------------------------------------------- a Modelfile as a value

  datatype Content = Content(
    from: Option<string>,
    quant: Option<string>,
    parameters: seq<Parameter>,
    template: Option<string>,
    adapter: Option<string>,
    system: Option<string>,
    license: Option<string>,
    messages: seq<Message>,
    data: seq<string>,
    errors: seq<Error>)

  const EMPTY := Content(None, None, [], None, None, None, None, [], [], [])

  /** A call of the builder. */
  datatype Call =
    | From(value: string)
    | Template(value: string)
    | License(value: string)
    | Adapter(value: string)
    | SystemText(value: string)
    | Comment(value: string)
    | Param(name: string, value: string)
    | Chat(name: string, value: string)

  /** The line a successful call leaves in the data log. */
  function Line(c: Call): string {
    match c
    case From(v) => "FROM " + v
    case Template(v) => "TEMPLATE " + v
    case License(v) => "LICENSE " + v
    case Adapter(v) => "ADAPTER " + v
    case SystemText(v) => "SYSTEM " + v
    case Comment(v) => "# " + v
    case Param(name, v) => "PARAMETER " + name + " " + v
    case Chat(name, v) => "MESSAGE " + name + " " + v
  }

  function Wrong(m: Content, error: Error): Content {
    m.(errors := m.errors + [error])
  }

  function Log(m: Content, c: Call): Content {
    m.(data := m.data + [Line(c)])
  }

  predicate IsSystemLine(line: string) {
    StartsWith(line, "system")
  }

  /** Place of the first SYSTEM line, the length of the log without one. */
  function SystemLineAt(data: seq<string>): (k: nat)
    ensures k <= |data| && (k < |data| ==> IsSystemLine(data[k]))
    ensures forall j :: 0 <= j < k ==> !IsSystemLine(data[j])
  {
    if data == [] || IsSystemLine(data[0]) then 0 else 1 + SystemLineAt(data[1..])
  }

  /** The first SYSTEM line replaced, or one more line. */
  function PutSystem(data: seq<string>, line: string): seq<string> {
    var k := SystemLineAt(data);
    if k < |data| then data[k := line] else data + [line]
  }

  /** What a call does. It failed exactly when it left an error. */
  function Apply(m: Content, c: Call, floats: Floats): Content {
    match c
    case From(v) =>
      if m.from.Some? then Wrong(m, Second("FROM"))
      else
        var (repo, quant) := SplitModelSpec(Trim(v));
        Log(m.(from := Some(repo), quant := quant), c)
    case Template(v) =>
      if m.template.Some? then Wrong(m, Second("TEMPLATE"))
      else Log(m.(template := Some(v)), c)
    case License(v) =>
      if m.license.Some? then Wrong(m, Second("LICENSE"))
      else Log(m.(license := Some(v)), c)
    case Adapter(v) =>
      if m.adapter.Some? then Wrong(m, Second("ADAPTER"))
      else Log(m.(adapter := Some(v)), c)
    case SystemText(v) => m.(system := Some(v), data := PutSystem(m.data, Line(c)))
    case Comment(v) => Log(m, c)
    case Param(name, v) =>
      (match ParseParameter(name, v, floats)
       case Ok(p) => Log(m.(parameters := m.parameters + [p]), c)
       case Err(e) => Wrong(m, e))
    case Chat(name, v) =>
      (match ParseMessage(name, v)
       case Ok(msg) => Log(m.(messages := m.messages + [msg]), c)
       case Err(e) => Wrong(m, e))
  }

  function Print(m: Content): string {
    Join(m.data)
  }

  function Show(o: Output): string {
    match o
    case Single(text) => text
    case Pair(word, text) => word + " " + text
  }

  /** The builder call a parsed command stands for, if its kind of arguments fits. */
  function CallOf(c: Command): Option<Call> {
    var name := Lower(c.instruction);
    match c.output
    case Single(text) =>
      if name == "from" then Some(From(Trim(text)))
      else if name == "template" then Some(Template(Trim(text)))
      else if name == "system" then Some(SystemText(Trim(text)))
      else if name == "adapter" then Some(Adapter(Trim(text)))
      else if name == "license" then Some(License(Trim(text)))
      else if name == "#" then Some(Comment(text))
      else None
    case Pair(word, text) =>
      if name == "parameter" then Some(Param(word, Trim(text)))
      else if name == "message" then Some(Chat(word, Trim(text)))
      else if name == "#" then Some(Comment(Show(c.output)))
      else None
  }

  function RunCommand(m: Content, c: Command, floats: Floats): Content {
    match CallOf(c)
    case Some(call) => Apply(m, call, floats)
    case None =>
      Wrong(m, Invalid(Lower(c.instruction), Show(c.output)))
  }

  function RunAll(commands: seq<Command>, floats: Floats): Content {
    if commands == [] then EMPTY
    else RunCommand(RunAll(commands[..|commands| - 1], floats), commands[|commands| - 1], floats)
  }

  function JoinErrors(errors: seq<Error>): string {
    if errors == [] then ""
    else if |errors| == 1 then ErrorText(errors[0])
    else ErrorText(errors[0]) + " , " + JoinErrors(errors[1..])
  }

  function CreateModelfile(commands: seq<Command>, floats: Floats): Result<Content, string> {
    var m := RunAll(commands, floats);
    if m.from.None? then Err(ErrorText(NoFrom))
    else if m.errors == [] then Ok(m)
    else Err(JoinErrors(m.errors))
  }

  /** What is left after the last command is not looked at. */
  function Parse(s: string, floats: Floats): Result<Content, string> {
    match ParseFile(s)
    case Fail => Err("Modelfile failed to parse")
    case Done(commands, rest) => CreateModelfile(commands, floats)
  }
}
