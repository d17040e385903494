/** internal/promptselector/selector.go: a selector that owns one embedding
    matcher for its whole life, so the matcher's cache carries over from one
    selection to the next. */
module PromptSelector {
  import opened Results
  import opened Gateway
  import opened Ranking
  import opened Embedding

  class PromptSelector {
    const matcher: EmbeddingMatcher
    const client: EmbeddingClient

    /** `NewPromptSelector`: one fresh matcher, with an empty cache, over the same client. */
    constructor (client: EmbeddingClient, similarity: (Vector, Vector) -> real)
      ensures this.client == client && matcher.client == client && matcher.similarity == similarity
      ensures fresh(matcher) && matcher.embeddings == map[]
    {
      this.client := client;
      matcher := new EmbeddingMatcher(client, similarity);
    }

    /** `SelectBestPrompt`: the matcher's top-1 over `prompts` for `message`.  The
        source indexes the first match without checking, so an empty pool is
        excluded here rather than answered. */
    method SelectBestPrompt(prompts: seq<string>, message: string) returns (r: Result<string>)
      requires |prompts| > 0
      modifies matcher, matcher.client
      ensures var o := Lookups(matcher.client.respond, old(matcher.embeddings), old(matcher.client.calls), [message] + prompts);
              matcher.embeddings == o.cache && matcher.client.calls == o.calls && (r.Ok? <==> o.ok)
      // a matcher error is passed on as it is, without a context of its own
      ensures r.Err? ==> r.error == Wrapped(EmbeddingContext, GatewayError)
      ensures r.Ok? ==>
        && Covers(matcher.embeddings, message, prompts)
        && r.value in prompts
        && var scores := Scores(matcher.similarity, matcher.embeddings, message, prompts);
           forall p :: p in prompts ==> scores[p] <= scores[r.value]
      // everything cached already: nothing is sent and the selection cannot fail
      ensures Covers(old(matcher.embeddings), message, prompts) ==>
        r.Ok? && matcher.embeddings == old(matcher.embeddings) && matcher.client.calls == old(matcher.client.calls)
    {
      var bestMatches := matcher.FindBestMatches(message, prompts, 1);
      if bestMatches.Err? {
        return Err(bestMatches.error);
      }
      TopOneIsMaximal(bestMatches.value, prompts, Scores(matcher.similarity, matcher.embeddings, message, prompts));
      return Ok(bestMatches.value[0]);
    }
  }

  /** Two selections with the same message and pool on one selector: once the first
      has succeeded, the second succeeds too, sends nothing to the embedding client
      and leaves the cache alone (the log and the cache are those the first
      selection left), and it picks a prompt with the same best score. */
  method SelectTwice(selector: PromptSelector, prompts: seq<string>, message: string)
    returns (first: Result<string>, second: Result<string>)
    requires |prompts| > 0
    modifies selector.matcher, selector.matcher.client
    ensures var o := Lookups(selector.matcher.client.respond, old(selector.matcher.embeddings),
                             old(selector.matcher.client.calls), [message] + prompts);
            first.Ok? ==>
              && second.Ok?
              && selector.matcher.client.calls == o.calls
              && selector.matcher.embeddings == o.cache
    ensures second.Ok? ==> Covers(selector.matcher.embeddings, message, prompts)
    ensures first.Ok? && second.Ok? ==>
      var scores := Scores(selector.matcher.similarity, selector.matcher.embeddings, message, prompts);
      first.value in prompts && second.value in prompts && scores[first.value] == scores[second.value]
  {
    first := selector.SelectBestPrompt(prompts, message);
    second := selector.SelectBestPrompt(prompts, message);
  }
}
