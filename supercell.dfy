/**
 * How the service turns a Supercell API response into its own result
 * (`handleSupercellResponse` in src/services/supercell.ts): the data on
 * status 200, a fixed error message on any other status, and the status
 * echoed in either case.
 */
module Supercell {
  import opened Wrappers
  import opened JsonValues

  /** The two result shapes: `{ data, status }` or `{ error, status }`. */
  datatype SupercellResult =
    | DataResult(data: Option<Json>, status: int)
    | ErrorResult(error: string, status: int)

  const Ok: int := 200
  const NotFound: int := 404
  const TooManyRequests: int := 429
  const ServiceUnavailable: int := 503

  const UnexpectedMessage: string := "Unexpected error. Please try again."
  const NotFoundMessage: string := "Not found."
  const RateLimitMessage: string := "Supercell rate limit exceeded. Please try again later."
  const MaintenanceMessage: string := "Supercell maintenance break."

  /** The error message for a status other than 200. */
  function ErrorMessage(status: int): (message: string)
    ensures status == NotFound ==> message == NotFoundMessage
    ensures status == TooManyRequests ==> message == RateLimitMessage
    ensures status == ServiceUnavailable ==> message == MaintenanceMessage
    ensures status !in {NotFound, TooManyRequests, ServiceUnavailable} ==> message == UnexpectedMessage
  {
    if status == NotFound then NotFoundMessage
    else if status == TooManyRequests then RateLimitMessage
    else if status == ServiceUnavailable then MaintenanceMessage
    else UnexpectedMessage
  }

  /** The body is an object whose `items` is neither null nor undefined. */
  predicate HasItems(data: Option<Json>) {
    data.Some? && data.value.JObject? && "items" in data.value.fields && data.value.fields["items"] != JNull
  }

  /** The list endpoints wrap their results in `items`: `data?.items ?? data`. */
  function Unwrap(data: Option<Json>): (r: Option<Json>)
    ensures HasItems(data) ==> r == Some(data.value.fields["items"])
    ensures !HasItems(data) ==> r == data
  {
    Coalesce(GetOpt(data, "items"), data)
  }

  /** `handleSupercellResponse` over the response's body and status. */
  function HandleSupercellResponse(data: Option<Json>, status: int): (r: SupercellResult)
    ensures r.status == status
    ensures r.DataResult? <==> status == Ok
    ensures r.DataResult? ==> r.data == Unwrap(data)
    ensures r.ErrorResult? ==> r.error == ErrorMessage(status)
  {
    if status == Ok then DataResult(Unwrap(data), status)
    else ErrorResult(ErrorMessage(status), status)
  }

  /** The error messages tell the three known failures apart from each other and from the rest. */
  lemma ErrorMessagesDistinct(s1: int, s2: int)
    requires s1 != Ok && s2 != Ok
    requires ErrorMessage(s1) == ErrorMessage(s2)
    ensures s1 == s2 || (s1 !in {NotFound, TooManyRequests, ServiceUnavailable}
      && s2 !in {NotFound, TooManyRequests, ServiceUnavailable})
  {
  }

  /** A body without `items` is passed through as it is, and `items` is taken out of one that has it. */
  lemma UnwrapItems(items: Json, rest: map<string, Json>)
    requires items != JNull
    ensures HandleSupercellResponse(Some(JObject(rest["items" := items])), Ok).data == Some(items)
    ensures "items" !in rest ==> HandleSupercellResponse(Some(JObject(rest)), Ok).data == Some(JObject(rest))
  {
  }
}
