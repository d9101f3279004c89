/** What a Modelfile holds, told from the calls or the text it was made with. */
module ModelfileMeaning {
  import opened Prelude
  import opened Text
  import opened Modelfiles
  import opened ModelfileRoundTrip

  /** The calls of one kind, in order. */
  function Those(calls: seq<Call>, kind: Call -> bool): seq<Call> {
    if calls == [] then []
    else
      Those(calls[..|calls| - 1], kind) + if kind(calls[|calls| - 1]) then [calls[|calls| - 1]] else []
  }

  predicate IsFrom(c: Call) {
    c.From?
  }

  predicate IsTemplate(c: Call) {
    c.Template?
  }

  predicate IsLicense(c: Call) {
    c.License?
  }

  predicate IsAdapter(c: Call) {
    c.Adapter?
  }

  predicate IsSystem(c: Call) {
    c.SystemText?
  }

  predicate IsParam(c: Call, floats: Floats) {
    c.Param? && Fits(c.name, c.value, floats)
  }

  predicate IsChat(c: Call) {
    c.Chat? && Lower(c.name) in SPEAKERS
  }

  // ---------------------------------------------------------------- field by field

  /** A field that is set once has the value of the first call of its kind. */
  predicate HoldsFirst(field: Option<string>, those: seq<Call>) {
    field == if those == [] then None else Some(those[0].value)
  }

  predicate HoldsLast(field: Option<string>, those: seq<Call>) {
    field == if those == [] then None else Some(those[|those| - 1].value)
  }

  /** The first FROM, split at its last colon if both parts are there. */
  predicate HoldsFrom(from: Option<string>, quant: Option<string>, those: seq<Call>) {
    if those == [] then from == None && quant == None
    else from.Some? && (from.value, quant) == SplitModelSpec(Trim(those[0].value))
  }

  predicate HoldsParams(parameters: seq<Parameter>, those: seq<Call>, floats: Floats) {
    && |parameters| == |those|
    && forall i :: 0 <= i < |those| ==>
         those[i].Param? && IsParameter(parameters[i], those[i].name, those[i].value, floats)
  }

  predicate HoldsChats(messages: seq<Message>, those: seq<Call>) {
    && |messages| == |those|
    && forall i :: 0 <= i < |those| ==> those[i].Chat? && IsMessage(messages[i], those[i].name, those[i].value)
  }

  ghost predicate Holds(m: Content, calls: seq<Call>, floats: Floats) {
    && HoldsFrom(m.from, m.quant, Those(calls, IsFrom))
    && HoldsFirst(m.template, Those(calls, IsTemplate))
    && HoldsFirst(m.license, Those(calls, IsLicense))
    && HoldsFirst(m.adapter, Those(calls, IsAdapter))
    && HoldsLast(m.system, Those(calls, IsSystem))
    && HoldsParams(m.parameters, Those(calls, c => IsParam(c, floats)), floats)
    && HoldsChats(m.messages, Those(calls, IsChat))
  }

  lemma OneMoreOf(calls: seq<Call>, c: Call, kind: Call -> bool)
    ensures Those(calls + [c], kind) == Those(calls, kind) + if kind(c) then [c] else []
  {
    assert (calls + [c])[..|calls|] == calls;
  }

  lemma FromNext(m: Content, those: seq<Call>, c: Call, floats: Floats)
    requires HoldsFrom(m.from, m.quant, those)
    ensures HoldsFrom(Apply(m, c, floats).from, Apply(m, c, floats).quant, those + (if IsFrom(c) then [c] else []))
  {
  }

  lemma TemplateNext(m: Content, those: seq<Call>, c: Call, floats: Floats)
    requires HoldsFirst(m.template, those)
    ensures HoldsFirst(Apply(m, c, floats).template, those + (if IsTemplate(c) then [c] else []))
  {
  }

  lemma LicenseNext(m: Content, those: seq<Call>, c: Call, floats: Floats)
    requires HoldsFirst(m.license, those)
    ensures HoldsFirst(Apply(m, c, floats).license, those + (if IsLicense(c) then [c] else []))
  {
  }

  lemma AdapterNext(m: Content, those: seq<Call>, c: Call, floats: Floats)
    requires HoldsFirst(m.adapter, those)
    ensures HoldsFirst(Apply(m, c, floats).adapter, those + (if IsAdapter(c) then [c] else []))
  {
  }

  lemma SystemNext(m: Content, those: seq<Call>, c: Call, floats: Floats)
    requires HoldsLast(m.system, those)
    ensures HoldsLast(Apply(m, c, floats).system, those + (if IsSystem(c) then [c] else []))
  {
  }

  lemma ParamsNext(m: Content, those: seq<Call>, c: Call, floats: Floats)
    requires HoldsParams(m.parameters, those, floats)
    ensures HoldsParams(Apply(m, c, floats).parameters, those + (if IsParam(c, floats) then [c] else []), floats)
  {
    if c.Param? {
      ParameterMeaning(c.name, c.value, floats);
    }
  }

  lemma ChatsNext(m: Content, those: seq<Call>, c: Call, floats: Floats)
    requires HoldsChats(m.messages, those)
    ensures HoldsChats(Apply(m, c, floats).messages, those + (if IsChat(c) then [c] else []))
  {
    if c.Chat? {
      MessageMeaning(c.name, c.value);
    }
  }

  lemma HoldsNext(m: Content, calls: seq<Call>, c: Call, floats: Floats)
    requires Holds(m, calls, floats)
    ensures Holds(Apply(m, c, floats), calls + [c], floats)
  {
    OneMoreOf(calls, c, IsFrom);
    FromNext(m, Those(calls, IsFrom), c, floats);
    OneMoreOf(calls, c, IsTemplate);
    TemplateNext(m, Those(calls, IsTemplate), c, floats);
    OneMoreOf(calls, c, IsLicense);
    LicenseNext(m, Those(calls, IsLicense), c, floats);
    OneMoreOf(calls, c, IsAdapter);
    AdapterNext(m, Those(calls, IsAdapter), c, floats);
    OneMoreOf(calls, c, IsSystem);
    SystemNext(m, Those(calls, IsSystem), c, floats);
    var fits := c => IsParam(c, floats);
    OneMoreOf(calls, c, fits);
    ParamsNext(m, Those(calls, fits), c, floats);
    OneMoreOf(calls, c, IsChat);
    ChatsNext(m, Those(calls, IsChat), c, floats);
  }

  /** Whatever calls were made, and whichever of them failed: fields that are set once hold
      the first value, the system text is the last one, and parameters and messages are those
      that fit, in order. */
  lemma {:induction false} FieldsMeaning(calls: seq<Call>, floats: Floats)
    ensures Holds(Fold(calls, floats), calls, floats)
  {
    if calls != [] {
      var init, c := calls[..|calls| - 1], calls[|calls| - 1];
      assert calls == init + [c];
      FieldsMeaning(init, floats);
      HoldsNext(Fold(init, floats), init, c, floats);
    }
  }

  // ---------------------------------------------------------------- when it succeeds

  predicate Fitting(c: Call, floats: Floats) {
    (c.Param? ==> Fits(c.name, c.value, floats)) && (c.Chat? ==> Lower(c.name) in SPEAKERS)
  }

  predicate AllFitting(calls: seq<Call>, floats: Floats) {
    forall i :: 0 <= i < |calls| ==> Fitting(calls[i], floats)
  }

  /** One FROM, TEMPLATE, LICENSE and ADAPTER at most, and values that fit. */
  predicate Consistent(calls: seq<Call>, floats: Floats) {
    && |Those(calls, IsFrom)| <= 1 && |Those(calls, IsTemplate)| <= 1
    && |Those(calls, IsLicense)| <= 1 && |Those(calls, IsAdapter)| <= 1
    && AllFitting(calls, floats)
  }

  predicate Free(m: Content, c: Call) {
    && (c.From? ==> m.from == None) && (c.Template? ==> m.template == None)
    && (c.License? ==> m.license == None) && (c.Adapter? ==> m.adapter == None)
  }

  lemma NoErrorNext(m: Content, c: Call, floats: Floats)
    ensures Apply(m, c, floats).errors == [] <==> m.errors == [] && Free(m, c) && Fitting(c, floats)
  {
    if c.Param? {
      ParameterMeaning(c.name, c.value, floats);
    } else if c.Chat? {
      MessageMeaning(c.name, c.value);
    }
  }

  lemma CountNext(calls: seq<Call>, c: Call, kind: Call -> bool)
    ensures |Those(calls + [c], kind)| <= 1 <==> |Those(calls, kind)| <= 1 && (kind(c) ==> Those(calls, kind) == [])
  {
    OneMoreOf(calls, c, kind);
  }

  lemma FittingNext(calls: seq<Call>, c: Call, floats: Floats)
    ensures AllFitting(calls + [c], floats) <==> AllFitting(calls, floats) && Fitting(c, floats)
  {
    assert (calls + [c])[|calls|] == c;
    assert forall i :: 0 <= i < |calls| ==> (calls + [c])[i] == calls[i];
  }

  /** No field the call would set is set yet. */
  predicate FirstOfKind(calls: seq<Call>, c: Call) {
    && (IsFrom(c) ==> Those(calls, IsFrom) == []) && (IsTemplate(c) ==> Those(calls, IsTemplate) == [])
    && (IsLicense(c) ==> Those(calls, IsLicense) == []) && (IsAdapter(c) ==> Those(calls, IsAdapter) == [])
  }

  lemma FromUnset(from: Option<string>, quant: Option<string>, those: seq<Call>)
    requires HoldsFrom(from, quant, those)
    ensures from == None <==> those == []
  {
  }

  lemma FreeExactly(m: Content, calls: seq<Call>, c: Call, floats: Floats)
    requires Holds(m, calls, floats)
    ensures Free(m, c) <==> FirstOfKind(calls, c)
  {
    FromUnset(m.from, m.quant, Those(calls, IsFrom));
  }

  lemma ConsistentNext(calls: seq<Call>, c: Call, floats: Floats)
    ensures Consistent(calls + [c], floats) <==>
              Consistent(calls, floats) && FirstOfKind(calls, c) && Fitting(c, floats)
  {
    CountNext(calls, c, IsFrom);
    CountNext(calls, c, IsTemplate);
    CountNext(calls, c, IsLicense);
    CountNext(calls, c, IsAdapter);
    FittingNext(calls, c, floats);
  }

  /** No call fails exactly when no field that is set once is set twice and all values fit. */
  lemma {:induction false} SucceedsExactly(calls: seq<Call>, floats: Floats)
    ensures Fold(calls, floats).errors == [] <==> Consistent(calls, floats)
  {
    if calls != [] {
      var init, c := calls[..|calls| - 1], calls[|calls| - 1];
      assert calls == init + [c];
      SucceedsExactly(init, floats);
      FieldsMeaning(init, floats);
      NoErrorNext(Fold(init, floats), c, floats);
      FreeExactly(Fold(init, floats), init, c, floats);
      ConsistentNext(init, c, floats);
    }
  }

  // ---------------------------------------------------------------- by the text

  /** What a command asks for: the instruction, in any case, and the text it is given. */
  predicate Means(c: Command, call: Call) {
    match call
    case From(v) => Lower(c.instruction) == "from" && c.output.Single? && v == Trim(c.output.text)
    case Template(v) => Lower(c.instruction) == "template" && c.output.Single? && v == Trim(c.output.text)
    case License(v) => Lower(c.instruction) == "license" && c.output.Single? && v == Trim(c.output.text)
    case Adapter(v) => Lower(c.instruction) == "adapter" && c.output.Single? && v == Trim(c.output.text)
    case SystemText(v) => Lower(c.instruction) == "system" && c.output.Single? && v == Trim(c.output.text)
    case Comment(v) => Lower(c.instruction) == "#" && v == Show(c.output)
    case Param(name, v) =>
      Lower(c.instruction) == "parameter" && c.output.Pair? && name == c.output.word && v == Trim(c.output.text)
    case Chat(name, v) =>
      Lower(c.instruction) == "message" && c.output.Pair? && name == c.output.word && v == Trim(c.output.text)
  }

  predicate AllMean(commands: seq<Command>, calls: seq<Call>) {
    |commands| == |calls| && forall i :: 0 <= i < |calls| ==> Means(commands[i], calls[i])
  }

  /** A command stands for the call it means, and for none if it means none. */
  lemma CallMeaning(c: Command, call: Call)
    ensures Means(c, call) <==> CallOf(c) == Some(call)
  {
  }

  lemma RunNext(commands: seq<Command>, c: Command, calls: seq<Call>, call: Call, floats: Floats)
    requires RunAll(commands, floats) == Fold(calls, floats) && Means(c, call)
    ensures RunAll(commands + [c], floats) == Fold(calls + [call], floats)
  {
    CallMeaning(c, call);
    FoldLast(calls, call, floats);
    assert (commands + [c])[..|commands|] == commands;
  }

  lemma RunFine(commands: seq<Command>, c: Command, floats: Floats) returns (call: Call)
    requires RunAll(commands + [c], floats).errors == []
    ensures Means(c, call) && RunAll(commands, floats).errors == []
  {
    var m := RunAll(commands, floats);
    assert (commands + [c])[..|commands|] == commands;
    call := CallOf(c).value;
    CallMeaning(c, call);
    NoErrorNext(m, call, floats);
  }

  lemma LastApart<T>(s: seq<T>)
    requires s != []
    ensures s == s[..|s| - 1] + [s[|s| - 1]]
  {
  }

  lemma AllMeanNext(commands: seq<Command>, calls: seq<Call>, c: Command, call: Call)
    ensures AllMean(commands + [c], calls + [call]) <==> AllMean(commands, calls) && Means(c, call)
  {
    var cs, all := commands + [c], calls + [call];
    if |commands| == |calls| {
      assert cs[|calls|] == c && all[|calls|] == call;
      assert forall i :: 0 <= i < |calls| ==> cs[i] == commands[i] && all[i] == calls[i];
    }
  }

  lemma {:induction false} CallsRun(commands: seq<Command>, floats: Floats) returns (calls: seq<Call>)
    requires RunAll(commands, floats).errors == []
    ensures AllMean(commands, calls) && RunAll(commands, floats) == Fold(calls, floats)
  {
    calls := [];
    if commands != [] {
      var init, c := commands[..|commands| - 1], commands[|commands| - 1];
      LastApart(commands);
      var call := RunFine(init, c, floats);
      var before := CallsRun(init, floats);
      AllMeanNext(init, before, c, call);
      RunNext(init, c, before, call, floats);
      calls := before + [call];
    }
  }

  /** A text that parses holds what its commands ask for, field by field, and asks for
      nothing twice. */
  lemma ParsedMeaning(s: string, floats: Floats) returns (calls: seq<Call>)
    requires Parse(s, floats).Ok?
    ensures ParseFile(s).Done? && AllMean(ParseFile(s).value, calls) && Consistent(calls, floats)
    ensures Holds(Parse(s, floats).value, calls, floats) && Those(calls, IsFrom) != []
  {
    calls := CallsRun(ParseFile(s).value, floats);
    FieldsMeaning(calls, floats);
    SucceedsExactly(calls, floats);
  }

  lemma {:induction false} MeantRuns(commands: seq<Command>, calls: seq<Call>, floats: Floats)
    requires AllMean(commands, calls)
    ensures RunAll(commands, floats) == Fold(calls, floats)
  {
    if calls != [] {
      var init, c := commands[..|commands| - 1], commands[|commands| - 1];
      var before, call := calls[..|calls| - 1], calls[|calls| - 1];
      LastApart(commands);
      LastApart(calls);
      AllMeanNext(init, before, c, call);
      MeantRuns(init, before, floats);
      RunNext(init, c, before, call, floats);
    }
  }

  /** And any text whose commands ask for calls that go together, with a FROM, parses. */
  lemma MeantParses(s: string, calls: seq<Call>, floats: Floats)
    requires ParseFile(s).Done? && AllMean(ParseFile(s).value, calls)
    requires Consistent(calls, floats) && Those(calls, IsFrom) != []
    ensures Parse(s, floats).Ok?
  {
    MeantRuns(ParseFile(s).value, calls, floats);
    FieldsMeaning(calls, floats);
    SucceedsExactly(calls, floats);
  }

  /** The text of any plain and consistent calls with a FROM parses, and the result holds what
      the calls said. */
  lemma PrintedMeaning(calls: seq<Call>, tail: string, floats: Floats)
    requires AllPlain(calls) && Ignored(tail) && Consistent(calls, floats) && Those(calls, IsFrom) != []
    ensures var s := Print(Fold(calls, floats)) + tail;
            Parse(s, floats).Ok? && Holds(Parse(s, floats).value, calls, floats)
  {
    SucceedsExactly(calls, floats);
    FieldsMeaning(calls, floats);
    RoundTrip(calls, tail, floats);
  }
}
