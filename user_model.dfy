/**
  The signed-in user of the recipe book. Instants are milliseconds since the
  epoch; the clock reading `now` is a parameter wherever the application asks
  for the current date.
 */
module UserModel {
  import opened Wrappers

  /**
    A user record: e-mail, identity-provider id, bearer token and the instant
    the token expires. The fields are set once by the constructor and never
    reassigned; the expiration is absent when the record carries no date.
   */
  datatype User = User(email: string, id: string, storedToken: string, tokenExpirationDate: Option<int>)
  {
    /**
      The `token` getter: the stored token while the session is valid at
      `now`, and nothing otherwise. Reaching the expiration instant exactly
      still counts as valid; only a later instant expires the token.
     */
    function Token(now: int): (r: Option<string>)
      ensures r.Some? <==> tokenExpirationDate.Some? && now <= tokenExpirationDate.value
      ensures r.Some? ==> r.value == storedToken
    {
      if tokenExpirationDate.None? || now > tokenExpirationDate.value then None else Some(storedToken)
    }
  }

  /** Once the token has lapsed it stays lapsed: a later clock never revives it. */
  lemma TokenExpiryIsPermanent(u: User, t: int, t': int)
    requires t <= t'
    requires u.Token(t).None?
    ensures u.Token(t').None?
  {
  }

  /** A token valid at some instant was valid at every earlier instant and is the same token. */
  lemma TokenValidityIsDownwardClosed(u: User, t: int, t': int)
    requires t' <= t
    requires u.Token(t).Some?
    ensures u.Token(t') == u.Token(t)
  {
  }
}
