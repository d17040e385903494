/** internal/promptpipeline/pipeline.go: a linear chain of prompt stages.  Each
    stage renders its template against the caller's variables map, sends the text
    as the system message of one chat request, and stores the answer under "Input"
    in that same map, where the next stage's template can read it. */
module PromptPipeline {
  import opened Results
  import opened Gateway

  /** The user message every stage sends: the literal string passed as the second
      argument of the completion call. */
  const UserMessage := "gpt-4o-mini"
  /** The variable each stage's answer is written to. */
  const InputKey := "Input"

  datatype PromptTemplate = PromptTemplate(name: string, template: string)

  /** text/template as an oracle: whether a template text parses, and what executing
      a parsed template against a variables map produces (`None`: execution failed). */
  datatype TemplateEngine = TemplateEngine(
    parses: string -> bool,
    execute: (string, map<string, string>) -> Option<string>)

  /** The caller's `map[string]interface{}`, shared by reference. */
  class Variables {
    var entries: map<string, string>

    constructor (entries: map<string, string>)
      ensures this.entries == entries
    {
      this.entries := entries;
    }
  }

  /** Everything a run of stages determines: what it returns, the variables map it
      leaves, and the chat requests sent so far. */
  datatype Outcome = Outcome(result: Result<string>, variables: map<string, string>, calls: seq<ChatCall>)

  /** The stages `templates` run from a state in which the last answer is `result`,
      the map is `vars` and `calls` requests have been made; `respond` answers the
      k-th request. */
  function Run(templates: seq<PromptTemplate>, engine: TemplateEngine, respond: (ChatCall, nat) -> Option<string>,
               result: string, vars: map<string, string>, calls: seq<ChatCall>): (o: Outcome)
    decreases |templates|
    // zero stages: the input comes back, nothing is sent, the map is untouched
    ensures templates == [] ==> o == Outcome(Ok(result), vars, calls)
    // requests are only appended, at most one per stage, each with the fixed user message
    ensures |calls| <= |o.calls| <= |calls| + |templates| && o.calls[..|calls|] == calls
    ensures forall i :: |calls| <= i < |o.calls| ==> o.calls[i].user == UserMessage
    // on success: exactly one request per stage, and the answer is the last request's
    // response, also left under "Input"
    ensures o.result.Ok? ==> |o.calls| == |calls| + |templates|
    ensures o.result.Ok? && templates != [] ==>
      && respond(o.calls[|o.calls| - 1], |o.calls| - 1) == Some(o.result.value)
      && InputKey in o.variables && o.variables[InputKey] == o.result.value
    // only "Input" is ever written
    ensures forall k :: k != InputKey ==> (k in o.variables <==> k in vars)
    ensures forall k :: k != InputKey && k in vars ==> o.variables[k] == vars[k]
    // the first request carries the first template rendered against the map as given
    ensures |o.calls| > |calls| ==> engine.execute(templates[0].template, vars) == Some(o.calls[|calls|].system)
    // the errors a stage can stop with
    ensures o.result.Err? ==> o.result.error.ParseError? || o.result.error.ExecError? || o.result.error == GatewayError
  {
    if templates == [] then Outcome(Ok(result), vars, calls)
    else
      var t := templates[0];
      if !engine.parses(t.template) then Outcome(Err(ParseError(t.name)), vars, calls)
      else match engine.execute(t.template, vars)
        case None => Outcome(Err(ExecError(t.name)), vars, calls)
        case Some(rendered) =>
          var call := ChatCall(rendered, UserMessage);
          match respond(call, |calls|)
          case None => Outcome(Err(GatewayError), vars, calls + [call])
          case Some(response) =>
            var o := Run(templates[1..], engine, respond, response, vars[InputKey := response], calls + [call]);
            assert o.calls[..|calls|] == (o.calls[..|calls| + 1])[..|calls|];
            o
  }

  /** Running `first` and then `second` is running `first + second`: a failing stage
      ends the run with its error and the state it left, and otherwise the next
      stage starts from the answer, map and request log the previous one left. */
  lemma {:induction false} RunAppend(first: seq<PromptTemplate>, second: seq<PromptTemplate>, engine: TemplateEngine,
                                     respond: (ChatCall, nat) -> Option<string>,
                                     result: string, vars: map<string, string>, calls: seq<ChatCall>)
    ensures var o := Run(first, engine, respond, result, vars, calls);
            Run(first + second, engine, respond, result, vars, calls)
            == if o.result.Err? then o else Run(second, engine, respond, o.result.value, o.variables, o.calls)
    decreases |first|
  {
    if first == [] {
      assert first + second == second;
    } else {
      var t := first[0];
      assert (first + second)[0] == t && (first + second)[1..] == first[1..] + second;
      if engine.parses(t.template) && engine.execute(t.template, vars).Some? {
        var call := ChatCall(engine.execute(t.template, vars).value, UserMessage);
        if respond(call, |calls|).Some? {
          var response := respond(call, |calls|).value;
          RunAppend(first[1..], second, engine, respond, response, vars[InputKey := response], calls + [call]);
        }
      }
    }
  }

  /** The scenario of two stages answered "A" and then "B": the result is "B", the
      second stage renders against the map with "Input" set to "A", and the map is
      left with "Input" set to "B". */
  lemma TwoStages(engine: TemplateEngine, respond: (ChatCall, nat) -> Option<string>,
                  analyze: PromptTemplate, summarize: PromptTemplate,
                  initialInput: string, vars: map<string, string>, first: string, second: string)
    requires engine.parses(analyze.template) && engine.parses(summarize.template)
    requires engine.execute(analyze.template, vars) == Some(first)
    requires respond(ChatCall(first, UserMessage), 0) == Some("A")
    requires engine.execute(summarize.template, vars[InputKey := "A"]) == Some(second)
    requires respond(ChatCall(second, UserMessage), 1) == Some("B")
    ensures Run([analyze, summarize], engine, respond, initialInput, vars, [])
         == Outcome(Ok("B"), vars[InputKey := "B"], [ChatCall(first, UserMessage), ChatCall(second, UserMessage)])
  {
    assert [analyze, summarize][1..] == [summarize];
    assert vars[InputKey := "A"][InputKey := "B"] == vars[InputKey := "B"];
  }

  /** The first stage does not see `initialInput`: with at least one stage, runs that
      differ only in it have the same outcome. */
  lemma InitialInputUnused(templates: seq<PromptTemplate>, engine: TemplateEngine,
                           respond: (ChatCall, nat) -> Option<string>,
                           input1: string, input2: string, vars: map<string, string>, calls: seq<ChatCall>)
    requires templates != []
    ensures Run(templates, engine, respond, input1, vars, calls) == Run(templates, engine, respond, input2, vars, calls)
  {
  }

  class Pipeline {
    const templates: seq<PromptTemplate>

    /** `NewPipeline`. */
    constructor (templates: seq<PromptTemplate>)
      ensures this.templates == templates
    {
      this.templates := templates;
    }

    /** `Execute`: the loop over the stages, writing into the caller's map in place.
        What it returns, the map it leaves and the requests it sends are those of
        `Run` from the caller's state. */
    method Execute(client: CompletionClient, engine: TemplateEngine, initialInput: string, variables: Variables)
      returns (r: Result<string>)
      modifies client, variables
      ensures var o := Run(templates, engine, client.respond, initialInput, old(variables.entries), old(client.calls));
              r == o.result && variables.entries == o.variables && client.calls == o.calls
    {
      var result := initialInput;
      for i := 0 to |templates|
        invariant Run(templates, engine, client.respond, initialInput, old(variables.entries), old(client.calls))
               == Run(templates[i..], engine, client.respond, result, variables.entries, client.calls)
      {
        var promptTemplate := templates[i];
        assert templates[i..][0] == promptTemplate && templates[i..][1..] == templates[i + 1..];
        if !engine.parses(promptTemplate.template) {
          return Err(ParseError(promptTemplate.name));
        }
        var rendered := engine.execute(promptTemplate.template, variables.entries);
        if rendered.None? {
          return Err(ExecError(promptTemplate.name));
        }
        var response := client.CreateChatCompletion(rendered.value, UserMessage);
        if response.Err? {
          return Err(response.error);
        }
        result := response.value;
        variables.entries := variables.entries[InputKey := result];
      }
      return Ok(result);
    }
  }
}
