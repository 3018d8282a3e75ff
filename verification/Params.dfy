/** The parameter names of the OAuth endpoints. */
module Params {
  import opened Basics

  const CLIENT_ID: Str := "client_id"
  const CLIENT_SECRET: Str := "client_secret"
  const CODE: Str := "code"
  const CODE_CHALLENGE: Str := "code_challenge"
  const CODE_CHALLENGE_METHOD: Str := "code_challenge_method"
  const CODE_VERIFIER: Str := "code_verifier"
  const ERROR: Str := "error"
  const GRANT_TYPE: Str := "grant_type"
  const REDIRECT_URI: Str := "redirect_uri"
  const RESOURCE: Str := "resource"
  const RESPONSE_TYPE: Str := "response_type"
  const SCOPE: Str := "scope"
  const SECRET: Str := "secret"
  const STATE: Str := "state"
  const VIAPROXY: Str := "viaproxy"
  const AUTHORIZATION_CODE: Str := "authorization_code"
}
