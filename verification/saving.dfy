/**
  The save handler the hero, technologies and socials editors share: read the
  token, throw before any request when it is missing or empty, otherwise send the
  body with it, and report the outcome in a toast.
 */
module Saving {
  import opened Wrappers
  import Auth
  import Api
  import opened Effects

  datatype Attempt<P> = Attempt(sent: Option<Api.Sent<P>>, toast: Toast)

  /**
    `token = auth.getToken(); if (!token) throw ...; await write(body, token)`,
    with `ok` the outcome of the write and `done`/`failed` the two toast texts.
   */
  function Guarded<P>(host: Auth.Host, write: string -> Api.Call, body: P, ok: bool, done: string, failed: string): (r: Attempt<P>)
    ensures r.sent.Some? <==> Auth.IsAuthenticated(host)
    ensures r.sent.Some? ==> r.sent.value == Api.Sent(write(Auth.GetToken(host).value), body)
    ensures r.sent.Some? && ok ==> r.toast == Success(done)
    ensures !(r.sent.Some? && ok) ==> r.toast == Failure(failed)
  {
    var token := Auth.GetToken(host);
    if token.None? || token.value == "" then Attempt(None, Failure(failed))
    else if ok then Attempt(Some(Api.Sent(write(token.value), body)), Success(done))
    else Attempt(Some(Api.Sent(write(token.value), body)), Failure(failed))
  }
}
