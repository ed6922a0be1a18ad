/** The signed-in user and the bearer token that the stores attach to their remote calls. */
module Session {
  import opened Wrappers

  /** `data.user` as the auth endpoints return it. */
  datatype User = User(id: int, name: string, email: string, role: string)

  /** `user && token`: the token, when there is both a user and a non-empty token. The stores
      call the backend only in that case. */
  function BearerOf(user: Option<User>, token: string): (s: Option<string>)
    ensures s.Some? <==> user.Some? && token != ""
    ensures s.Some? ==> s.value == token
  {
    if user.Some? && token != "" then Some(token) else None
  }

  /** A remote call the client intends to make, with the token of its `Authorization: Bearer`
      header. */
  datatype Call<R> = Call(token: string, request: R)

  /** The calls a handler issues for `request`: one when signed in, none otherwise. */
  function SendIf<R>(session: Option<string>, request: R): (calls: seq<Call<R>>)
    ensures |calls| == (if session.Some? then 1 else 0)
    ensures session.Some? ==> calls[0] == Call(session.value, request)
  {
    if session.Some? then [Call(session.value, request)] else []
  }
}
