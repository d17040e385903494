/** internal/embedding/embedding_selector.go: the embedding matcher with its
    read-through cache.  The cache is the `embeddings` field; it only grows,
    and an entry once stored is never replaced. */
module Embedding {
  import opened Results
  import opened Gateway
  import opened Ranking

  /** The context `getEmbedding` puts in front of a client error. */
  const EmbeddingContext := "error creating embedding"
  /** The context `SelectBestPrompt` puts in front of a matcher error. */
  const MatchContext := "error finding best match"

  /** Every entry of `before` is still in `after`, with the same vector. */
  ghost predicate Extends(before: map<string, Vector>, after: map<string, Vector>)
  {
    forall t :: t in before ==> t in after && after[t] == before[t]
  }

  /** The query and every candidate have a cached vector. */
  ghost predicate Covers(cache: map<string, Vector>, query: string, candidates: seq<string>)
  {
    query in cache && forall c :: c in candidates ==> c in cache
  }

  /** Each candidate's score against the query, from the cached vectors: the
      `similarity` recorded for it in the `similarities` slice. */
  function Scores(similarity: (Vector, Vector) -> real, cache: map<string, Vector>,
                  query: string, candidates: seq<string>): map<string, real>
    requires Covers(cache, query, candidates)
  {
    map c | c in candidates :: similarity(cache[query], cache[c])
  }

  /** What a run of `getEmbedding` calls ends in: whether every lookup succeeded,
      the cache it leaves and the embedding client's request log. */
  datatype LookupOutcome = LookupOutcome(ok: bool, cache: map<string, Vector>, calls: seq<string>)

  /** `getEmbedding` on each of `texts` in turn, stopping at the first failure,
      from cache `cache` and request log `calls`; `respond` answers the k-th request.
      Its properties are the `Lookups...` lemmas below. */
  function Lookups(respond: (string, nat) -> Option<Vector>, cache: map<string, Vector>,
                   calls: seq<string>, texts: seq<string>): LookupOutcome
    decreases |texts|
  {
    if texts == [] then LookupOutcome(true, cache, calls)
    else
      var t := texts[0];
      if t in cache then Lookups(respond, cache, calls, texts[1..])
      else match respond(t, |calls|)
        case None => LookupOutcome(false, cache, calls + [t])
        case Some(v) => Lookups(respond, cache[t := v], calls + [t], texts[1..])
  }

  /** From `cache` and log `calls` to `o`: requests were only appended, and the
      cache only grew, no entry being replaced. */
  ghost predicate Grew(o: LookupOutcome, cache: map<string, Vector>, calls: seq<string>)
  {
    |calls| <= |o.calls| && o.calls[..|calls|] == calls && Extends(cache, o.cache)
  }

  /** Every request after `calls` was for a text of `texts` not in `cache`, and no
      text was requested twice. */
  ghost predicate SentOnlyMisses(o: LookupOutcome, cache: map<string, Vector>, calls: seq<string>, texts: seq<string>)
  {
    && (forall i :: |calls| <= i < |o.calls| ==> o.calls[i] !in cache && o.calls[i] in texts)
    && (forall i, j :: |calls| <= i < j < |o.calls| ==> o.calls[i] != o.calls[j])
  }

  /** Every entry cached since `cache` was requested after `calls`. */
  ghost predicate CachedOnlyRequested(o: LookupOutcome, cache: map<string, Vector>, calls: seq<string>)
  {
    |calls| <= |o.calls| && forall t :: t in o.cache && t !in cache ==> t in o.calls[|calls|..]
  }

  /** Every request after `calls` whose text is now cached holds the client's
      answer to that request. */
  ghost predicate CachedAnswers(o: LookupOutcome, respond: (string, nat) -> Option<Vector>, calls: seq<string>)
  {
    forall i :: |calls| <= i < |o.calls| && o.calls[i] in o.cache ==> respond(o.calls[i], i) == Some(o.cache[o.calls[i]])
  }

  /** Every request of `log` from position `from` on was answered. */
  ghost predicate AllAnswered(respond: (string, nat) -> Option<Vector>, log: seq<string>, from: nat)
  {
    forall i :: from <= i < |log| ==> respond(log[i], i).Some?
  }

  /** An answered request at position `k` does not change whether everything from
      `k` on was answered. */
  lemma AnsweredFrom(respond: (string, nat) -> Option<Vector>, log: seq<string>, k: nat)
    requires k < |log| && respond(log[k], k).Some?
    ensures AllAnswered(respond, log, k) <==> AllAnswered(respond, log, k + 1)
  {
  }

  /** The run succeeded exactly when every request after `calls` was answered, and
      then every text is cached; a failure is the last request, the only one not
      cached, so what was fetched before it stays cached. */
  ghost predicate FailsOnlyOnUnanswered(o: LookupOutcome, respond: (string, nat) -> Option<Vector>,
                                        calls: seq<string>, texts: seq<string>)
  {
    && (o.ok <==> AllAnswered(respond, o.calls, |calls|))
    && (o.ok ==> forall t :: t in texts ==> t in o.cache)
    && (!o.ok ==>
          && |o.calls| > |calls| && o.calls[|o.calls| - 1] !in o.cache
          && forall i :: |calls| <= i < |o.calls| - 1 ==> o.calls[i] in o.cache)
  }

  lemma {:induction false} LookupsGrow(respond: (string, nat) -> Option<Vector>, cache: map<string, Vector>,
                                       calls: seq<string>, texts: seq<string>)
    ensures Grew(Lookups(respond, cache, calls, texts), cache, calls)
    decreases |texts|
  {
    if texts != [] {
      var t := texts[0];
      if t in cache {
        LookupsGrow(respond, cache, calls, texts[1..]);
      } else if respond(t, |calls|).Some? {
        var v := respond(t, |calls|).value;
        LookupsGrow(respond, cache[t := v], calls + [t], texts[1..]);
        var o := Lookups(respond, cache[t := v], calls + [t], texts[1..]);
        assert o.calls[..|calls|] == (o.calls[..|calls| + 1])[..|calls|];
      }
    }
  }

  lemma {:induction false} LookupsOnlyMisses(respond: (string, nat) -> Option<Vector>, cache: map<string, Vector>,
                                             calls: seq<string>, texts: seq<string>)
    ensures SentOnlyMisses(Lookups(respond, cache, calls, texts), cache, calls, texts)
    decreases |texts|
  {
    if texts != [] {
      var t, rest := texts[0], texts[1..];
      assert forall x :: x in rest ==> x in texts;
      if t in cache {
        LookupsOnlyMisses(respond, cache, calls, rest);
      } else if respond(t, |calls|).Some? {
        var v := respond(t, |calls|).value;
        LookupsGrow(respond, cache[t := v], calls + [t], rest);
        LookupsOnlyMisses(respond, cache[t := v], calls + [t], rest);
        var o := Lookups(respond, cache[t := v], calls + [t], rest);
        assert o.calls[|calls|] == t by {
          assert o.calls[..|calls| + 1][|calls|] == t;
        }
      } else {
        assert (calls + [t])[|calls|] == t;
      }
    }
  }

  lemma {:induction false} LookupsCacheOnlyRequested(respond: (string, nat) -> Option<Vector>, cache: map<string, Vector>,
                                                     calls: seq<string>, texts: seq<string>)
    ensures CachedOnlyRequested(Lookups(respond, cache, calls, texts), cache, calls)
    decreases |texts|
  {
    LookupsGrow(respond, cache, calls, texts);
    if texts != [] {
      var t := texts[0];
      if t in cache {
        LookupsCacheOnlyRequested(respond, cache, calls, texts[1..]);
      } else if respond(t, |calls|).Some? {
        var v := respond(t, |calls|).value;
        LookupsGrow(respond, cache[t := v], calls + [t], texts[1..]);
        LookupsCacheOnlyRequested(respond, cache[t := v], calls + [t], texts[1..]);
        var o := Lookups(respond, cache[t := v], calls + [t], texts[1..]);
        assert o.calls[|calls|] == t by {
          assert o.calls[..|calls| + 1][|calls|] == t;
        }
        assert o.calls[|calls|..] == [t] + o.calls[|calls| + 1..];
      }
    }
  }

  lemma {:induction false} LookupsCacheAnswers(respond: (string, nat) -> Option<Vector>, cache: map<string, Vector>,
                                               calls: seq<string>, texts: seq<string>)
    ensures CachedAnswers(Lookups(respond, cache, calls, texts), respond, calls)
    decreases |texts|
  {
    if texts != [] {
      var t := texts[0];
      if t in cache {
        LookupsCacheAnswers(respond, cache, calls, texts[1..]);
      } else if respond(t, |calls|).Some? {
        var v := respond(t, |calls|).value;
        LookupsGrow(respond, cache[t := v], calls + [t], texts[1..]);
        LookupsCacheAnswers(respond, cache[t := v], calls + [t], texts[1..]);
        var o := Lookups(respond, cache[t := v], calls + [t], texts[1..]);
        assert o.calls[|calls|] == t by {
          assert o.calls[..|calls| + 1][|calls|] == t;
        }
      }
    }
  }

  lemma {:induction false} LookupsOutcome(respond: (string, nat) -> Option<Vector>, cache: map<string, Vector>,
                                          calls: seq<string>, texts: seq<string>)
    ensures FailsOnlyOnUnanswered(Lookups(respond, cache, calls, texts), respond, calls, texts)
    decreases |texts|
  {
    if texts != [] {
      var t, rest := texts[0], texts[1..];
      assert forall x :: x in rest ==> x in texts;
      if t in cache {
        LookupsOutcome(respond, cache, calls, rest);
        LookupsGrow(respond, cache, calls, rest);
      } else if respond(t, |calls|).Some? {
        var v := respond(t, |calls|).value;
        LookupsGrow(respond, cache[t := v], calls + [t], rest);
        LookupsOutcome(respond, cache[t := v], calls + [t], rest);
        var o := Lookups(respond, cache[t := v], calls + [t], rest);
        assert o.calls[|calls|] == t by {
          assert o.calls[..|calls| + 1][|calls|] == t;
        }
        assert |calls + [t]| == |calls| + 1;
        AnsweredFrom(respond, o.calls, |calls|);
      } else {
        assert (calls + [t])[|calls|] == t;
      }
    }
  }

  /** Against a client that answers every request, a run never fails: every text
      ends up cached. */
  lemma LookupsAnsweredSucceed(respond: (string, nat) -> Option<Vector>, cache: map<string, Vector>,
                               calls: seq<string>, texts: seq<string>)
    requires forall t, k :: respond(t, k).Some?
    ensures Lookups(respond, cache, calls, texts).ok
    ensures forall t :: t in texts ==> t in Lookups(respond, cache, calls, texts).cache
  {
    LookupsOutcome(respond, cache, calls, texts);
  }

  /** With every text cached already, nothing is sent and nothing changes. */
  lemma {:induction false} LookupsAllCached(respond: (string, nat) -> Option<Vector>, cache: map<string, Vector>,
                                            calls: seq<string>, texts: seq<string>)
    requires forall t :: t in texts ==> t in cache
    ensures Lookups(respond, cache, calls, texts) == LookupOutcome(true, cache, calls)
    decreases |texts|
  {
    if texts != [] {
      LookupsAllCached(respond, cache, calls, texts[1..]);
    }
  }

  /** A failed run stopped at the failing text: it is the run over the texts up to
      and including that one, and nothing after it was looked up. */
  lemma {:induction false} LookupsStopAtFailure(respond: (string, nat) -> Option<Vector>,
                                                cache: map<string, Vector>, calls: seq<string>, texts: seq<string>)
    returns (k: nat)
    requires !Lookups(respond, cache, calls, texts).ok
    ensures var o := Lookups(respond, cache, calls, texts);
            k < |texts| && |o.calls| > 0 && o.calls[|o.calls| - 1] == texts[k] && Lookups(respond, cache, calls, texts[..k + 1]) == o
    decreases |texts|
  {
    var t := texts[0];
    if t in cache {
      var k' := LookupsStopAtFailure(respond, cache, calls, texts[1..]);
      k := k' + 1;
      assert texts[..k + 1][0] == t && texts[..k + 1][1..] == texts[1..][..k' + 1];
    } else if respond(t, |calls|).None? {
      k := 0;
    } else {
      var v := respond(t, |calls|).value;
      var k' := LookupsStopAtFailure(respond, cache[t := v], calls + [t], texts[1..]);
      k := k' + 1;
      assert texts[..k + 1][0] == t && texts[..k + 1][1..] == texts[1..][..k' + 1];
    }
  }

  /** The proof step of `FindBestMatches` after the sort: the sorted entries answer
      a top-`n` query under the scores the cache gives. */
  lemma RankedResult(similarity: (Vector, Vector) -> real, cache: map<string, Vector>,
                     scored: seq<Scored>, sorted: seq<Scored>, query: string, candidates: seq<string>, n: nat)
    requires Covers(cache, query, candidates)
    requires |scored| == |candidates|
    requires forall j :: 0 <= j < |candidates| ==>
      scored[j] == Scored(candidates[j], similarity(cache[query], cache[candidates[j]]))
    requires SortedDesc(sorted) && multiset(sorted) == multiset(scored)
    ensures IsTopRanking(Texts(sorted[..Min(n, |sorted|)]), candidates, n, Scores(similarity, cache, query, candidates))
  {
    var scores := Scores(similarity, cache, query, candidates);
    assert Texts(scored) == candidates;
    forall x | x in sorted ensures x.candidate in scores && x.similarity == scores[x.candidate] {
      assert x in multiset(scored);
    }
    TextsPermutation(sorted, scored);
    RankingOfSorted(sorted, candidates, n, scores);
  }

  class EmbeddingMatcher {
    const client: EmbeddingClient
    /** `cosineSimilarity`, as an opaque total score. */
    const similarity: (Vector, Vector) -> real
    /** The memo cache from text to vector. */
    var embeddings: map<string, Vector>

    /** `NewEmbeddingMatcher`: a matcher with an empty cache. */
    constructor (client: EmbeddingClient, similarity: (Vector, Vector) -> real)
      ensures this.client == client && this.similarity == similarity
      ensures embeddings == map[]
    {
      this.client := client;
      this.similarity := similarity;
      embeddings := map[];
    }

    /** `getEmbedding`: read-through lookup. */
    method GetEmbedding(text: string) returns (r: Result<Vector>)
      modifies this, client
      // a hit: the stored vector, no request, cache unchanged
      ensures text in old(embeddings) ==>
        r == Ok(old(embeddings)[text]) && embeddings == old(embeddings) && client.calls == old(client.calls)
      // a miss: exactly one request, for this text
      ensures text !in old(embeddings) ==> client.calls == old(client.calls) + [text]
      // a miss answered: stored under exactly `text`, every other entry kept
      ensures text !in old(embeddings) && r.Ok? ==>
        client.respond(text, |old(client.calls)|) == Some(r.value) && embeddings == old(embeddings)[text := r.value]
      // a miss that fails: wrapped error, cache unchanged
      ensures text !in old(embeddings) && r.Err? ==>
        client.respond(text, |old(client.calls)|).None? && embeddings == old(embeddings)
        && r.error == Wrapped(EmbeddingContext, GatewayError)
    {
      if text in embeddings {
        return Ok(embeddings[text]);
      }
      var e := client.CreateEmbedding(text);
      if e.Err? {
        return Err(Wrapped(EmbeddingContext, e.error));
      }
      embeddings := embeddings[text := e.value];
      return Ok(e.value);
    }

    /** `FindBestMatches`: embed the query, embed and score every candidate, sort by
        descending score and keep the first `min(n, |candidates|)` texts.  The cache
        and the request log end as `Lookups` over the query and the candidates says,
        and the call fails exactly when one of those lookups fails. */
    method FindBestMatches(query: string, candidates: seq<string>, n: int) returns (r: Result<seq<string>>)
      requires n >= 0  // `make([]string, n)` panics on a negative length
      modifies this, client
      ensures var o := Lookups(client.respond, old(embeddings), old(client.calls), [query] + candidates);
              embeddings == o.cache && client.calls == o.calls && (r.Ok? <==> o.ok)
      ensures r.Err? ==> r.error == Wrapped(EmbeddingContext, GatewayError)
      ensures r.Ok? ==>
        && Covers(embeddings, query, candidates)
        && IsTopRanking(r.value, candidates, n, Scores(similarity, embeddings, query, candidates))
      ensures Covers(old(embeddings), query, candidates) ==>
        r.Ok? && embeddings == old(embeddings) && client.calls == old(client.calls)
    {
      if Covers(embeddings, query, candidates) {
        LookupsAllCached(client.respond, embeddings, client.calls, [query] + candidates);
      }
      assert ([query] + candidates)[0] == query && ([query] + candidates)[1..] == candidates;
      var q := GetEmbedding(query);
      if q.Err? {
        return Err(q.error);
      }
      var queryEmbedding := q.value;
      var similarities := new Scored[|candidates|](_ => Scored("", 0.0));
      var failed := ScoreCandidates(query, queryEmbedding, candidates, similarities);
      if failed.Some? {
        return Err(failed.value);
      }
      ghost var scored := similarities[..];
      ghost var cache := embeddings;
      LookupsOutcome(client.respond, old(embeddings), old(client.calls), [query] + candidates);
      var bestMatches := TopCandidates(similarities, n);
      RankedResult(similarity, cache, scored, similarities[..], query, candidates, n);
      return Ok(bestMatches);
    }

    /** The scoring loop of `FindBestMatches`: entry `i` of `similarities` becomes
        candidate `i` with its score against the query's vector; the first failing
        lookup stops the loop. */
    method ScoreCandidates(query: string, queryEmbedding: Vector, candidates: seq<string>, similarities: array<Scored>)
      returns (failed: Option<Error>)
      requires similarities.Length == |candidates|
      requires query in embeddings && embeddings[query] == queryEmbedding
      modifies this, client, similarities
      ensures var o := Lookups(client.respond, old(embeddings), old(client.calls), candidates);
              embeddings == o.cache && client.calls == o.calls && (failed.None? <==> o.ok)
      ensures query in embeddings && embeddings[query] == queryEmbedding
      ensures failed.Some? ==> failed.value == Wrapped(EmbeddingContext, GatewayError)
      ensures failed.None? ==>
        forall j :: 0 <= j < |candidates| ==>
          && candidates[j] in embeddings
          && similarities[j] == Scored(candidates[j], similarity(queryEmbedding, embeddings[candidates[j]]))
    {
      for i := 0 to |candidates|
        invariant query in embeddings && embeddings[query] == queryEmbedding
        invariant forall j :: 0 <= j < i ==>
          && candidates[j] in embeddings
          && similarities[j] == Scored(candidates[j], similarity(queryEmbedding, embeddings[candidates[j]]))
        invariant Lookups(client.respond, old(embeddings), old(client.calls), candidates)
               == Lookups(client.respond, embeddings, client.calls, candidates[i..])
      {
        assert candidates[i..][0] == candidates[i] && candidates[i..][1..] == candidates[i + 1..];
        var c := GetEmbedding(candidates[i]);
        if c.Err? {
          return Some(c.error);
        }
        similarities[i] := Scored(candidates[i], similarity(queryEmbedding, c.value));
      }
      return None;
    }

    /** `SelectBestPrompt` on the matcher: top-1 with an explicit empty-result check. */
    method SelectBestPrompt(message: string, promptPool: seq<string>) returns (r: Result<string>)
      modifies this, client
      ensures var o := Lookups(client.respond, old(embeddings), old(client.calls), [message] + promptPool);
              && embeddings == o.cache && client.calls == o.calls
              // it succeeds exactly when the pool is non-empty and every lookup succeeds,
              && (r.Ok? <==> promptPool != [] && o.ok)
              // and reports "no matching prompt found" exactly when the lookups succeed on an empty pool
              && (r == Err(NoMatch) <==> promptPool == [] && o.ok)
      ensures r.Ok? ==>
        && Covers(embeddings, message, promptPool)
        && r.value in promptPool
        && var scores := Scores(similarity, embeddings, message, promptPool);
           forall p :: p in promptPool ==> scores[p] <= scores[r.value]
      ensures r.Err? ==> r.error == NoMatch || r.error == Wrapped(MatchContext, Wrapped(EmbeddingContext, GatewayError))
      ensures Covers(old(embeddings), message, promptPool) && promptPool != [] ==>
        r.Ok? && embeddings == old(embeddings) && client.calls == old(client.calls)
    {
      var bestMatches := FindBestMatches(message, promptPool, 1);
      if bestMatches.Err? {
        return Err(Wrapped(MatchContext, bestMatches.error));
      }
      if |bestMatches.value| == 0 {
        return Err(NoMatch);
      }
      TopOneIsMaximal(bestMatches.value, promptPool, Scores(similarity, embeddings, message, promptPool));
      return Ok(bestMatches.value[0]);
    }
  }
}
