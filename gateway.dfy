/** The remote inference gateway (internal/openai/client.go) as two oracles.
    The HTTP request, JSON body, bearer header and status checks are not modelled:
    each client is a log of the requests it has received plus a total function that
    says what the remote side answers to the k-th request.  Because the answer may
    depend on k, nothing assumes that the remote side answers the same text the same
    way twice; `None` stands for every way the call can fail. */
module Gateway {
  import opened Results

  /** An embedding vector; float32 components are abstracted to reals. */
  type Vector = seq<real>

  /** One chat-completion request: a system-role and a user-role message. */
  datatype ChatCall = ChatCall(system: string, user: string)

  class EmbeddingClient {
    /** The answer to request number k for a given input text. */
    const respond: (string, nat) -> Option<Vector>
    /** Every text sent to the embedding endpoint, in order. */
    var calls: seq<string>

    constructor (respond: (string, nat) -> Option<Vector>)
      ensures this.respond == respond && calls == []
    {
      this.respond := respond;
      calls := [];
    }

    /** One request to the embedding endpoint: logged whether or not it succeeds. */
    method CreateEmbedding(input: string) returns (r: Result<Vector>)
      modifies this
      ensures calls == old(calls) + [input]
      ensures respond(input, |old(calls)|).Some? ==> r == Ok(respond(input, |old(calls)|).value)
      ensures respond(input, |old(calls)|).None? ==> r == Err(GatewayError)
    {
      var answer := respond(input, |calls|);
      calls := calls + [input];
      r := if answer.Some? then Ok(answer.value) else Err(GatewayError);
    }
  }

  class CompletionClient {
    /** The answer to request number k for a given pair of messages. */
    const respond: (ChatCall, nat) -> Option<string>
    /** Every chat request sent, in order. */
    var calls: seq<ChatCall>

    constructor (respond: (ChatCall, nat) -> Option<string>)
      ensures this.respond == respond && calls == []
    {
      this.respond := respond;
      calls := [];
    }

    /** One request to the chat-completion endpoint: the first choice's text, or an error. */
    method CreateChatCompletion(systemPrompt: string, userMessage: string) returns (r: Result<string>)
      modifies this
      ensures calls == old(calls) + [ChatCall(systemPrompt, userMessage)]
      ensures var answer := respond(ChatCall(systemPrompt, userMessage), |old(calls)|);
              r == if answer.Some? then Ok(answer.value) else Err(GatewayError)
    {
      var answer := respond(ChatCall(systemPrompt, userMessage), |calls|);
      calls := calls + [ChatCall(systemPrompt, userMessage)];
      r := if answer.Some? then Ok(answer.value) else Err(GatewayError);
    }
  }
}
