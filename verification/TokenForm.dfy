/** How /authorize and /token rewrite a client's parameters before Cognito sees them. */
module TokenForm {
  import opened Basics
  import opened Url
  import opened Params

  /** The configuration the OAuth handlers are built with; `resource` is the server's own base URL. */
  datatype Config = Config(resource: Str, clientID: Str, clientSecret: Str, diagEnabled: bool)
  {
    function Callback(): Str {
      resource + "/callback"
    }
  }

  /** Before the lock: drop `resource`, and pin redirect_uri for a code exchange. */
  function Prepare(cfg: Config, form: Values): Values {
    var stripped := Del(form, RESOURCE);
    if Get(stripped, GRANT_TYPE) == AUTHORIZATION_CODE
    then Set(stripped, REDIRECT_URI, cfg.Callback())
    else stripped
  }

  /** The form needs the server's client secret. */
  predicate Injects(cfg: Config, form: Values, auth: Str) {
    cfg.clientSecret != "" && Get(form, CLIENT_SECRET) == "" && auth == ""
  }

  /** On a cache miss: add the client secret for a client that authenticates in no other way. */
  function Inject(cfg: Config, form: Values, auth: Str): Values {
    if !Injects(cfg, form, auth) then form
    else
      var named := if Get(form, CLIENT_ID) == "" then Set(form, CLIENT_ID, cfg.clientID) else form;
      Set(named, CLIENT_SECRET, cfg.clientSecret)
  }

  function Rewrite(cfg: Config, form: Values, auth: Str): Values {
    Inject(cfg, Prepare(cfg, form), auth)
  }

  /** What /authorize sends on: redirect_uri pinned, `resource` dropped. */
  function RewriteAuthorize(cfg: Config, query: Values): Values {
    Del(Set(query, REDIRECT_URI, cfg.Callback()), RESOURCE)
  }

  /**
   The rewritten form, parameter by parameter. The secret is added, for every grant type, exactly when one is
   configured and the client sent neither a secret nor an Authorization header. Everything but four parameters
   keeps its whole value sequence; a client_id or client_secret the client really supplied is never replaced.
   */
  lemma RewrittenForm(cfg: Config, form: Values, auth: Str)
    ensures
      var out := Rewrite(cfg, form, auth);
      var injects := cfg.clientSecret != "" && Get(form, CLIENT_SECRET) == "" && auth == "";
      && RESOURCE !in out
      && Lookup(out, REDIRECT_URI) ==
           (if Get(form, GRANT_TYPE) == AUTHORIZATION_CODE
            then [cfg.resource + "/callback"] else Lookup(form, REDIRECT_URI))
      && Lookup(out, CLIENT_SECRET) == (if injects then [cfg.clientSecret] else Lookup(form, CLIENT_SECRET))
      && Lookup(out, CLIENT_ID) ==
           (if injects && Get(form, CLIENT_ID) == "" then [cfg.clientID] else Lookup(form, CLIENT_ID))
      && (forall k :: k !in {RESOURCE, REDIRECT_URI, CLIENT_ID, CLIENT_SECRET} ==> Lookup(out, k) == Lookup(form, k))
  {
  }

  lemma SuppliedCredentialsKept(cfg: Config, form: Values, auth: Str)
    ensures Get(form, CLIENT_SECRET) != "" ==>
      Lookup(Rewrite(cfg, form, auth), CLIENT_SECRET) == Lookup(form, CLIENT_SECRET)
    ensures Get(form, CLIENT_ID) != "" ==> Lookup(Rewrite(cfg, form, auth), CLIENT_ID) == Lookup(form, CLIENT_ID)
    ensures auth != "" ==> Lookup(Rewrite(cfg, form, auth), CLIENT_SECRET) == Lookup(form, CLIENT_SECRET)
  {
    RewrittenForm(cfg, form, auth);
  }

  /** A form that has been rewritten once passes through unchanged. */
  lemma RewriteIdempotent(cfg: Config, form: Values, auth: Str)
    ensures Rewrite(cfg, Rewrite(cfg, form, auth), auth) == Rewrite(cfg, form, auth)
  {
    var once := Rewrite(cfg, form, auth);
    RewrittenForm(cfg, form, auth);
    assert !Injects(cfg, once, auth);
    assert Del(once, RESOURCE) == once;
  }

  /** Facts about preparation that the handlers rely on. */
  lemma PreparedForm(cfg: Config, form: Values)
    requires Full(form)
    ensures
      var out := Prepare(cfg, form);
      && Full(out)
      && RESOURCE !in out
      && Get(out, CODE) == Get(form, CODE)
      && Get(out, GRANT_TYPE) == Get(form, GRANT_TYPE)
      && (Get(out, GRANT_TYPE) == AUTHORIZATION_CODE ==> Lookup(out, REDIRECT_URI) == [cfg.Callback()])
  {
  }

  lemma InjectedForm(cfg: Config, form: Values, auth: Str)
    requires Full(form) && RESOURCE !in form
    ensures
      var out := Inject(cfg, form, auth);
      && Full(out)
      && RESOURCE !in out
      && Get(out, CODE) == Get(form, CODE)
      && Get(out, GRANT_TYPE) == Get(form, GRANT_TYPE)
      && Lookup(out, REDIRECT_URI) == Lookup(form, REDIRECT_URI)
  {
  }

  lemma AuthorizeForm(cfg: Config, query: Values)
    requires Full(query)
    ensures Full(RewriteAuthorize(cfg, query))
    ensures RESOURCE !in RewriteAuthorize(cfg, query)
    ensures Lookup(RewriteAuthorize(cfg, query), REDIRECT_URI) == [cfg.Callback()]
    ensures forall k :: k !in {RESOURCE, REDIRECT_URI} ==> Lookup(RewriteAuthorize(cfg, query), k) == Lookup(query, k)
  {
  }
}
