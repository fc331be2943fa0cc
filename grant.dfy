/**
 * The password grant both credential round-trippers send to the token
 * endpoint, and the error they report when it is refused.
 */
module TokenGrant {
  import opened Http

  const ClientId: string := "morpheus-terraform"
  const GrantTypePassword: string := "password"
  const ScopeWrite: string := "write"

  /** The grant request: fixed client id, grant type and scope around the user's credentials. */
  function PasswordGrant(username: string, password: string): Grant
  {
    Grant(username, password, ClientId, GrantTypePassword, ScopeWrite)
  }

  const AuthFailurePrefix: string := "could not authenticate with the Morpheus API using the username:'"

  /**
   * The error returned when the grant is refused. It is built from the
   * username and the endpoint's error only; the password is not an input.
   * (The closing double quote is part of the format string as written.)
   */
  function AuthFailure(username: string, err: string): (msg: string)
    ensures |msg| > |AuthFailurePrefix| + |username|
    ensures msg[|AuthFailurePrefix|..|AuthFailurePrefix| + |username|] == username
  {
    AuthFailurePrefix + username + "',verify that the credentials are correct: " + err + "\""
  }
}
