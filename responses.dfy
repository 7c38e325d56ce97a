/**
 * The shapes of the backend SDK's responses, taken as input values, and the
 * rule by which the task service turns a create/update/delete response into
 * a result or an error.
 */
module Responses {
  import opened Basics

  /** One entry of the `results` array of a create/update/delete response. */
  datatype RecordResult<T> = RecordResult(success: bool, message: Option<string>, data: Option<T>)

  /** A create/update/delete response; `results` is absent when the SDK leaves it out. */
  datatype WriteResponse<T> = WriteResponse(success: bool, message: string, results: Option<seq<RecordResult<T>>>)

  /** A fetch response (list or by id). */
  datatype FetchResponse<T> = FetchResponse(success: bool, message: string, data: Option<T>)

  /** JavaScript `message || fallback`: an absent or empty message is falsy. */
  function MessageOr(message: Option<string>, fallback: string): string
  {
    if message.Some? && message.value != "" then message.value else fallback
  }

  /** `results.filter(result => !result.success)`, in order. */
  function Failed<T>(results: seq<RecordResult<T>>): seq<RecordResult<T>>
  {
    if results == [] then []
    else (if results[0].success then [] else [results[0]]) + Failed(results[1..])
  }

  /** `results.filter(result => result.success)`, in order. */
  function Succeeded<T>(results: seq<RecordResult<T>>): seq<RecordResult<T>>
  {
    if results == [] then []
    else (if results[0].success then [results[0]] else []) + Succeeded(results[1..])
  }

  /** The failed records are exactly the ones whose `success` is false; the first of them is the first failure in `results`. */
  lemma {:induction false} FailedFirst<T>(results: seq<RecordResult<T>>)
    ensures Failed(results) == [] <==> forall i | 0 <= i < |results| :: results[i].success
    ensures Failed(results) != [] ==>
              exists k | 0 <= k < |results| ::
                && !results[k].success
                && (forall i | 0 <= i < k :: results[i].success)
                && Failed(results)[0] == results[k]
  {
    if results != [] {
      FailedFirst(results[1..]);
      if results[0].success {
        if Failed(results) != [] {
          var k :| 0 <= k < |results[1..]|
                   && !results[1..][k].success
                   && (forall i | 0 <= i < k :: results[1..][i].success)
                   && Failed(results[1..])[0] == results[1..][k];
          assert results[k + 1] == results[1..][k];
          assert forall i | 0 <= i < k + 1 :: results[i].success by {
            forall i | 0 <= i < k + 1 ensures results[i].success {
              if i > 0 { assert results[i] == results[1..][i - 1]; }
            }
          }
        } else {
          forall i | 0 <= i < |results| ensures results[i].success {
            if i > 0 { assert results[i] == results[1..][i - 1]; }
          }
        }
      }
    }
  }

  /** When no record failed, the successful records are all of them. */
  lemma {:induction false} SucceededWhenNoneFailed<T>(results: seq<RecordResult<T>>)
    requires forall i | 0 <= i < |results| :: results[i].success
    ensures Succeeded(results) == results
  {
    if results != [] {
      assert forall i | 0 <= i < |results[1..]| :: results[1..][i].success by {
        forall i | 0 <= i < |results[1..]| ensures results[1..][i].success {
          assert results[1..][i] == results[i + 1];
        }
      }
      SucceededWhenNoneFailed(results[1..]);
      assert results == [results[0]] + results[1..];
    }
  }

  /**
   * The error a batch raises: none when every record succeeded; otherwise the
   * message of the first failed record, or `defaultMessage` when that message
   * is absent or empty.
   */
  function BatchError<T>(results: seq<RecordResult<T>>, defaultMessage: string): (r: Option<string>)
    ensures r.None? <==> forall i | 0 <= i < |results| :: results[i].success
    ensures r.Some? ==>
              exists k | 0 <= k < |results| ::
                && !results[k].success
                && (forall i | 0 <= i < k :: results[i].success)
                && r.value == MessageOr(results[k].message, defaultMessage)
  {
    FailedFirst(results);
    var failed := Failed(results);
    if |failed| > 0 then Some(MessageOr(failed[0].message, defaultMessage)) else None
  }

  /**
   * The checks a create/update/delete applies to its response, in the order
   * the service applies them: the response's own failure, then the first
   * failed record. `Ok(None)` when the response has no `results` (the service
   * function then returns undefined); otherwise `Ok(Some(successful records))`.
   */
  function Settle<T>(response: WriteResponse<T>, defaultMessage: string): (r: Outcome<Option<seq<RecordResult<T>>>>)
    ensures !response.success ==> r == Err(Thrown(response.message))
    ensures response.success && response.results.Some? &&
            BatchError(response.results.value, defaultMessage).Some? ==>
              r == Err(Thrown(BatchError(response.results.value, defaultMessage).value))
    ensures r.Err? <==>
              || !response.success
              || (response.results.Some? &&
                  exists i | 0 <= i < |response.results.value| :: !response.results.value[i].success)
    ensures r.Ok? ==> r.value == response.results
    ensures r.Ok? && r.value.Some? ==> forall i | 0 <= i < |r.value.value| :: r.value.value[i].success
  {
    if !response.success then Err(Thrown(response.message))
    else if response.results.None? then Ok(None)
    else
      var results := response.results.value;
      match BatchError(results, defaultMessage)
      case Some(message) => Err(Thrown(message))
      case None =>
        SucceededWhenNoneFailed(results);
        Ok(Some(Succeeded(results)))
  }
}
