/** The Modelfile object: what its methods change, field by field. */
module ModelfileBuilder {
  import opened Prelude
  import opened Text
  import opened Roles
  import M = Modelfiles

  /** A call succeeds exactly when it leaves no error behind. */
  predicate Answers(before: seq<M.Error>, after: seq<M.Error>, r: Result<(), M.Error>) {
    after == if r.Err? then before + [r.error] else before
  }

  class Modelfile {
    const floats: M.Floats
    var from: Option<string>
    var quant: Option<string>
    var parameters: seq<M.Parameter>
    var template: Option<string>
    var adapter: Option<string>
    var system: Option<string>
    var license: Option<string>
    var messages: seq<M.Message>
    var data: seq<string>
    var errors: seq<M.Error>

    constructor (floats: M.Floats)
      ensures this.floats == floats && Contents() == M.EMPTY
    {
      this.floats := floats;
      from, quant, template, adapter, system, license := None, None, None, None, None, None;
      parameters, messages, data, errors := [], [], [], [];
    }

    function Contents(): M.Content
      reads this
    {
      M.Content(from, quant, parameters, template, adapter, system, license, messages, data, errors)
    }

    method Refuse(error: M.Error) returns (r: Result<(), M.Error>)
      modifies `errors
      ensures r == Err(error) && errors == old(errors) + [error]
    {
      errors := errors + [error];
      r := Err(error);
    }

    method AddFrom(value: string) returns (r: Result<(), M.Error>)
      modifies `from, `quant, `data, `errors
      ensures Contents() == M.Apply(old(Contents()), M.From(value), floats)
      ensures Answers(old(errors), errors, r) && (r.Ok? <==> old(from).None?)
      ensures r.Ok? ==> (from, quant) == (Some(M.SplitModelSpec(Trim(value)).0), M.SplitModelSpec(Trim(value)).1)
      ensures data == if r.Ok? then old(data) + ["FROM " + value] else old(data)
      ensures r.Err? ==> r.error == M.Second("FROM") && from == old(from) && quant == old(quant)
    {
      if from.Some? {
        r := Refuse(M.Second("FROM"));
      } else {
        var (repo, tag) := M.SplitModelSpec(Trim(value));
        from, quant := Some(repo), tag;
        data := data + ["FROM " + value];
        r := Ok(());
      }
    }

    method AddTemplate(value: string) returns (r: Result<(), M.Error>)
      modifies `template, `data, `errors
      ensures Contents() == M.Apply(old(Contents()), M.Template(value), floats)
      ensures Answers(old(errors), errors, r) && (r.Ok? <==> old(template).None?)
      ensures template == if r.Ok? then Some(value) else old(template)
      ensures data == if r.Ok? then old(data) + ["TEMPLATE " + value] else old(data)
      ensures r.Err? ==> r.error == M.Second("TEMPLATE")
    {
      if template.Some? {
        r := Refuse(M.Second("TEMPLATE"));
      } else {
        template := Some(value);
        data := data + ["TEMPLATE " + value];
        r := Ok(());
      }
    }

    method AddLicense(value: string) returns (r: Result<(), M.Error>)
      modifies `license, `data, `errors
      ensures Contents() == M.Apply(old(Contents()), M.License(value), floats)
      ensures Answers(old(errors), errors, r) && (r.Ok? <==> old(license).None?)
      ensures license == if r.Ok? then Some(value) else old(license)
      ensures data == if r.Ok? then old(data) + ["LICENSE " + value] else old(data)
      ensures r.Err? ==> r.error == M.Second("LICENSE")
    {
      if license.Some? {
        r := Refuse(M.Second("LICENSE"));
      } else {
        license := Some(value);
        data := data + ["LICENSE " + value];
        r := Ok(());
      }
    }

    method AddAdapter(value: string) returns (r: Result<(), M.Error>)
      modifies `adapter, `data, `errors
      ensures Contents() == M.Apply(old(Contents()), M.Adapter(value), floats)
      ensures Answers(old(errors), errors, r) && (r.Ok? <==> old(adapter).None?)
      ensures adapter == if r.Ok? then Some(value) else old(adapter)
      ensures data == if r.Ok? then old(data) + ["ADAPTER " + value] else old(data)
      ensures r.Err? ==> r.error == M.Second("ADAPTER")
    {
      if adapter.Some? {
        r := Refuse(M.Second("ADAPTER"));
      } else {
        adapter := Some(value);
        data := data + ["ADAPTER " + value];
        r := Ok(());
      }
    }

    /** Overwrites the first SYSTEM line of the log, or adds one. */
    method AddSystem(value: string) returns (r: Result<(), M.Error>)
      modifies `system, `data
      ensures Contents() == M.Apply(old(Contents()), M.SystemText(value), floats)
      ensures Answers(old(errors), errors, r) && r.Ok?
      ensures system == Some(value)
      ensures (exists i :: 0 <= i < |old(data)| && M.IsSystemLine(old(data)[i])
                           && (forall j :: 0 <= j < i ==> !M.IsSystemLine(old(data)[j]))
                           && data == old(data)[i := "SYSTEM " + value])
           || ((forall i :: 0 <= i < |old(data)| ==> !M.IsSystemLine(old(data)[i]))
               && data == old(data) + ["SYSTEM " + value])
    {
      system := Some(value);
      var formatted := "SYSTEM " + value;
      var found := false;
      var i := 0;
      while i < |data|
        invariant 0 <= i <= |data|
        invariant forall j :: 0 <= j < i ==> !M.IsSystemLine(data[j])
        invariant data == old(data) && !found
      {
        if M.IsSystemLine(data[i]) {
          FirstLine(data, i);
          data := data[i := formatted];
          found := true;
          break;
        }
        i := i + 1;
      }
      if !found {
        data := data + [formatted];
      }
      r := Ok(());
    }

    method AddComment(value: string) returns (r: Result<(), M.Error>)
      modifies `data
      ensures Contents() == M.Apply(old(Contents()), M.Comment(value), floats)
      ensures Answers(old(errors), errors, r) && r.Ok? && data == old(data) + ["# " + value]
    {
      data := data + ["# " + value];
      r := Ok(());
    }

    method AddParameter(paramType: string, paramValue: string) returns (r: Result<(), M.Error>)
      modifies `parameters, `data, `errors
      ensures Contents() == M.Apply(old(Contents()), M.Param(paramType, paramValue), floats)
      ensures Answers(old(errors), errors, r) && (r.Ok? <==> M.Fits(paramType, paramValue, floats))
      ensures r.Ok? ==> |parameters| == |old(parameters)| + 1 && old(parameters) <= parameters
                        && M.IsParameter(parameters[|parameters| - 1], paramType, paramValue, floats)
      ensures data == if r.Ok? then old(data) + ["PARAMETER " + paramType + " " + paramValue] else old(data)
      ensures r.Err? ==> parameters == old(parameters)
    {
      M.ParameterMeaning(paramType, paramValue, floats);
      match M.ParseParameter(paramType, paramValue, floats)
      case Ok(parameter) =>
        parameters := parameters + [parameter];
        data := data + ["PARAMETER " + paramType + " " + paramValue];
        r := Ok(());
      case Err(err) =>
        r := Refuse(err);
    }

    method AddMessage(role: string, message: string) returns (r: Result<(), M.Error>)
      modifies `messages, `data, `errors
      ensures Contents() == M.Apply(old(Contents()), M.Chat(role, message), floats)
      ensures Answers(old(errors), errors, r) && (r.Ok? <==> Lower(role) in M.SPEAKERS)
      ensures r.Ok? ==> |messages| == |old(messages)| + 1 && old(messages) <= messages
                        && M.IsMessage(messages[|messages| - 1], role, message)
      ensures data == if r.Ok? then old(data) + ["MESSAGE " + role + " " + message] else old(data)
      ensures r.Err? ==> messages == old(messages)
    {
      M.MessageMeaning(role, message);
      match M.ParseMessage(role, message)
      case Ok(msg) =>
        messages := messages + [msg];
        data := data + ["MESSAGE " + role + " " + message];
        r := Ok(());
      case Err(err) =>
        r := Refuse(err);
    }

    method Build() returns (r: Result<(), M.Error>)
      modifies `errors
      ensures r.Ok? <==> from.Some?
      ensures Answers(old(errors), errors, r) && (r.Err? ==> r.error == M.NoFrom)
    {
      if from.None? {
        r := Refuse(M.NoFrom);
      } else {
        r := Ok(());
      }
    }

    /** One parsed command, by its instruction and the kind of its arguments. */
    method Run(command: M.Command)
      modifies this
      ensures Contents() == M.RunCommand(old(Contents()), command, floats)
    {
      var name := Lower(command.instruction);
      var r: Result<(), M.Error>;
      match command.output {
        case Single(text) =>
          if name == "from" { r := AddFrom(Trim(text)); }
          else if name == "template" { r := AddTemplate(Trim(text)); }
          else if name == "system" { r := AddSystem(Trim(text)); }
          else if name == "adapter" { r := AddAdapter(Trim(text)); }
          else if name == "license" { r := AddLicense(Trim(text)); }
          else if name == "#" { r := AddComment(text); }
          else { Invalid(command); }
        case Pair(word, text) =>
          if name == "parameter" { r := AddParameter(word, Trim(text)); }
          else if name == "message" { r := AddMessage(word, Trim(text)); }
          else if name == "#" { r := AddComment(M.Show(command.output)); }
          else { Invalid(command); }
      }
    }

    method Invalid(command: M.Command)
      requires M.CallOf(command).None?
      modifies `errors
      ensures Contents() == M.RunCommand(old(Contents()), command, floats)
    {
      errors := errors + [M.Error.Invalid(Lower(command.instruction), M.Show(command.output))];
    }
  }

  lemma FirstLine(data: seq<string>, i: nat)
    requires i < |data| && M.IsSystemLine(data[i])
    requires forall j :: 0 <= j < i ==> !M.IsSystemLine(data[j])
    ensures M.SystemLineAt(data) == i
  {
    assert M.SystemLineAt(data) < |data| ==> M.IsSystemLine(data[M.SystemLineAt(data)]);
  }

  /** Runs all commands on a new Modelfile and hands it out if it is complete. */
  method CreateModelfile(commands: seq<M.Command>, floats: M.Floats) returns (r: Result<M.Content, string>)
    ensures r == M.CreateModelfile(commands, floats)
  {
    var modelfile := new Modelfile(floats);
    var i := 0;
    while i < |commands|
      invariant 0 <= i <= |commands|
      invariant fresh(modelfile) && modelfile.floats == floats
      invariant modelfile.Contents() == M.RunAll(commands[..i], floats)
    {
      modelfile.Run(commands[i]);
      assert commands[..i + 1][..i] == commands[..i];
      i := i + 1;
    }
    assert commands[..i] == commands;
    var built := modelfile.Build();
    if built.Err? {
      return Err(M.ErrorText(built.error));
    }
    if modelfile.errors == [] {
      r := Ok(modelfile.Contents());
    } else {
      r := Err(M.JoinErrors(modelfile.errors));
    }
  }

  method Parse(input: string, floats: M.Floats) returns (r: Result<M.Content, string>)
    ensures r == M.Parse(input, floats)
  {
    match M.ParseFile(input)
    case Done(commands, _) => r := CreateModelfile(commands, floats);
    case Fail => r := Err("Modelfile failed to parse");
  }
}
