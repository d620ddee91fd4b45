/** What a `fetch` call settles with, and the way the pages read it: reject
    a status outside 200-299 with an `Error("<what> HTTP <status>")`, then
    parse the body with `res.json()`. */
module Http {
  import opened Values

  /** What `res.json()` settles with for this response. */
  datatype Body<T> = Json(value: T) | NotJson(reason: Error)

  datatype Response<T> = Response(status: int, statusText: string, body: Body<T>) {
    /** `res.ok` */
    predicate Ok() {
      200 <= status <= 299
    }
  }

  /** A `fetch` promise: a response was received, or the request failed
      before any response (the promise rejected). */
  datatype Outcome<T> = Received(response: Response<T>) | Rejected(reason: Error)

  /** `new Error(`${what} HTTP ${res.status}`)` */
  function HttpError(what: string, status: int): Error {
    Error(what + " HTTP " + DecimalString(status))
  }

  /** `const res = await fetch(...); if (!res.ok) throw new Error(...);
      return await res.json();` */
  function ReadJson<T>(o: Outcome<T>, what: string): (r: Result<T>)
    ensures r.Ok? <==> o.Received? && o.response.Ok() && o.response.body.Json?
    ensures r.Ok? ==> r.value == o.response.body.value
    ensures o.Received? && !o.response.Ok() ==> r == Err(HttpError(what, o.response.status))
  {
    match o
    case Rejected(e) => Err(e)
    case Received(res) =>
      if !res.Ok() then Err(HttpError(what, res.status))
      else match res.body
        case Json(v) => Ok(v)
        case NotJson(e) => Err(e)
  }

  /** The load effect of both pages: fetch two resources together
      (`Promise.all`), check `a` then `b` for a failing status, parse both
      together (`Promise.all`). When both requests of one `Promise.all` fail,
      the `a` error is the one recorded. */
  function LoadBoth<A, B>(a: Outcome<A>, la: string, b: Outcome<B>, lb: string): (r: Result<(A, B)>)
    ensures r.Ok? ==> a.Received? && b.Received? && a.response.Ok() && b.response.Ok()
    ensures a.Rejected? ==> r == Err(a.reason)
  {
    if a.Rejected? then Err(a.reason)
    else if b.Rejected? then Err(b.reason)
    else if !a.response.Ok() then Err(HttpError(la, a.response.status))
    else if !b.response.Ok() then Err(HttpError(lb, b.response.status))
    else if a.response.body.NotJson? then Err(a.response.body.reason)
    else if b.response.body.NotJson? then Err(b.response.body.reason)
    else Ok((a.response.body.value, b.response.body.value))
  }

  /** The combined load succeeds exactly when each request, read on its own,
      would; it then carries both values, and when it fails its error is one
      that one of the two requests produced. */
  lemma LoadBothAllOrNothing<A, B>(a: Outcome<A>, la: string, b: Outcome<B>, lb: string)
    ensures LoadBoth(a, la, b, lb).Ok? <==> ReadJson(a, la).Ok? && ReadJson(b, lb).Ok?
    ensures LoadBoth(a, la, b, lb).Ok? ==>
      LoadBoth(a, la, b, lb).value == (ReadJson(a, la).value, ReadJson(b, lb).value)
    ensures LoadBoth(a, la, b, lb).Err? ==>
      || (ReadJson(a, la).Err? && LoadBoth(a, la, b, lb).error == ReadJson(a, la).error)
      || (ReadJson(b, lb).Err? && LoadBoth(a, la, b, lb).error == ReadJson(b, lb).error)
  {
  }
}
