/**
 * `prepareHeaders` of the `fetchBaseQuery` that every API slice uses: the
 * bearer token comes from the Redux `auth` state, never from `localStorage`.
 */
module BaseQuery {
  import opened Wrappers
  import opened Types
  import opened Http
  import AuthSlice

  function PrepareHeaders(headers: Headers, auth: AuthSlice.AuthState): (r: Headers)
    ensures auth.tokens.None? || auth.tokens.value.access == "" ==> r == headers
    ensures auth.tokens.Some? && auth.tokens.value.access != "" ==> r == headers[Authorization := Bearer(auth.tokens.value.access)]
    ensures forall k :: k in r && k != Authorization ==> k in headers && r[k] == headers[k]
  {
    match auth.tokens
    case Some(t) => if t.access != "" then headers[Authorization := Bearer(t.access)] else headers
    case None => headers
  }

}
