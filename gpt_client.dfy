/** The central chat-completion wrapper: one call, retried on a 5xx error
    while the retry budget lasts. The API is an outcome per attempt. */
module GptClient {
  import opened Wrappers
  import opened Json

  /** Default `retry` when the caller gives none. */
  const DefaultRetry := 1

  datatype Usage = Usage(promptTokens: int, completionTokens: int)

  /** One attempt's outcome: a thrown error (with its HTTP status when it has
      one), or a response with its choices' message contents and usage. */
  datatype ApiOutcome =
    | Thrown(status: Option<int>, message: string)
    | Answered(choices: seq<Value>, usage: Option<Usage>)

  datatype GptReply = GptReply(reply: Value, tokensIn: int, tokensOut: int)

  datatype RequestOutcome = RequestOutcome(result: Result<GptReply>, attempts: nat)

  /** A thrown error with an HTTP status of 500 or more. */
  predicate ServerError(o: ApiOutcome)
  {
    o.Thrown? && o.status.Some? && o.status.value >= 500
  }

  /** `retry > 0 && err.status >= 500`; an error without a status is never retried. */
  predicate Retryable(o: ApiOutcome, retry: int)
  {
    retry > 0 && ServerError(o)
  }

  /** A final attempt's result: its error rethrown, a TypeError when there is
      no first choice, otherwise the first choice with zero usage when absent. */
  function Settle(o: ApiOutcome): (r: Result<GptReply>)
    ensures r.Ok? <==> o.Answered? && o.choices != []
    ensures r.Ok? ==> r.value.reply == o.choices[0]
    ensures r.Ok? && o.usage.None? ==> r.value.tokensIn == 0 && r.value.tokensOut == 0
    ensures r.Ok? && o.usage.Some? ==>
              r.value.tokensIn == o.usage.value.promptTokens && r.value.tokensOut == o.usage.value.completionTokens
  {
    match o
    case Thrown(_, m) => Err(m)
    case Answered(choices, usage) =>
      if choices == [] then Err("TypeError: Cannot read properties of undefined (reading 'message')")
      else
        var u := usage.GetOr(Usage(0, 0));
        Ok(GptReply(choices[0], u.promptTokens, u.completionTokens))
  }

  /** `request` starting at attempt `first`: every attempt but the last was a
      retryable 5xx error, there are at most `retry + 1` attempts, and the
      result is the last attempt's, settled. */
  function Request(api: nat -> ApiOutcome, retry: int, first: nat): (r: RequestOutcome)
    ensures 1 <= r.attempts <= (if retry > 0 then retry else 0) + 1
    ensures forall i :: first <= i < first + r.attempts - 1 ==> ServerError(api(i))
    ensures !Retryable(api(first + r.attempts - 1), retry - (r.attempts - 1))
    ensures r.result == Settle(api(first + r.attempts - 1))
    decreases if retry > 0 then retry else 0
  {
    var o := api(first);
    if Retryable(o, retry) then
      var rest := Request(api, retry - 1, first + 1);
      RequestOutcome(rest.result, rest.attempts + 1)
    else
      RequestOutcome(Settle(o), 1)
  }

  /** With the default budget, a 5xx followed by a good answer succeeds on the
      second attempt, and two 5xx errors in a row fail with the second. */
  lemma {:induction false} DefaultBudget(api: nat -> ApiOutcome)
    requires Retryable(api(0), DefaultRetry)
    ensures Request(api, DefaultRetry, 0).attempts == 2
    ensures Request(api, DefaultRetry, 0).result == Settle(api(1))
  {
    var rest := Request(api, DefaultRetry - 1, 1);
    assert rest.attempts == 1;
  }
}
