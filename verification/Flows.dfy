/** What a /testlogin flow stores, sends to the authorization server, and posts to /token. */
module Flows {
  import opened Basics
  import opened Url
  import opened Params
  import opened TokenForm

  /** The PKCE verifier of a flow and whether its secret goes into the token body. */
  datatype Flow = Flow(verifier: Str, useSecret: bool)

  function LoginQuery(cfg: Config, state: Str, challenge: Str): Values {
    map[
      CLIENT_ID := [cfg.clientID],
      RESPONSE_TYPE := [CODE],
      SCOPE := ["openid email phone"],
      REDIRECT_URI := [cfg.Callback()],
      STATE := [state],
      CODE_CHALLENGE := [challenge],
      CODE_CHALLENGE_METHOD := ["S256"]
    ]
  }

  function ExchangeForm(cfg: Config, code: Str, flow: Flow): Values {
    var form := map[
      GRANT_TYPE := [AUTHORIZATION_CODE],
      CLIENT_ID := [cfg.clientID],
      CODE := [code],
      CODE_VERIFIER := [flow.verifier],
      REDIRECT_URI := [cfg.Callback()]
    ];
    if flow.useSecret then Set(form, CLIENT_SECRET, cfg.clientSecret) else form
  }

  /** The query asks for a code with these parameters and no others. */
  ghost predicate AsksForCode(q: Values, cfg: Config, state: Str, challenge: Str) {
    && q.Keys ==
       {CLIENT_ID, RESPONSE_TYPE, SCOPE, REDIRECT_URI, STATE, CODE_CHALLENGE, CODE_CHALLENGE_METHOD}
    && Lookup(q, CLIENT_ID) == [cfg.clientID] && Lookup(q, RESPONSE_TYPE) == ["code"]
    && Lookup(q, SCOPE) == ["openid email phone"] && Lookup(q, REDIRECT_URI) == [cfg.resource + "/callback"]
    && Lookup(q, STATE) == [state]
    && Lookup(q, CODE_CHALLENGE) == [challenge] && Lookup(q, CODE_CHALLENGE_METHOD) == ["S256"]
  }

  lemma LoginNamesDiffer()
    ensures CLIENT_ID !in {RESPONSE_TYPE, SCOPE, REDIRECT_URI, STATE, CODE_CHALLENGE, CODE_CHALLENGE_METHOD}
    ensures RESPONSE_TYPE !in {SCOPE, REDIRECT_URI, STATE, CODE_CHALLENGE, CODE_CHALLENGE_METHOD}
    ensures SCOPE !in {REDIRECT_URI, STATE, CODE_CHALLENGE, CODE_CHALLENGE_METHOD}
    ensures REDIRECT_URI !in {STATE, CODE_CHALLENGE, CODE_CHALLENGE_METHOD}
    ensures STATE !in {CODE_CHALLENGE, CODE_CHALLENGE_METHOD} && CODE_CHALLENGE != CODE_CHALLENGE_METHOD
    ensures RESOURCE !in {CLIENT_ID, RESPONSE_TYPE, SCOPE, REDIRECT_URI, STATE, CODE_CHALLENGE, CODE_CHALLENGE_METHOD}
  {
    assert |CLIENT_ID| == 9 && |RESPONSE_TYPE| == 13 && |REDIRECT_URI| == 12 && |RESOURCE| == 8;
    assert |CODE_CHALLENGE| == 14 && |CODE_CHALLENGE_METHOD| == 21 && |SCOPE| == 5 && |STATE| == 5;
    assert SCOPE[1] == 'c' && STATE[1] == 't';
  }

  /** What a test login sends the browser away with. */
  lemma LoginParameters(cfg: Config, state: Str, challenge: Str)
    ensures Full(LoginQuery(cfg, state, challenge)) && RESOURCE !in LoginQuery(cfg, state, challenge)
    ensures AsksForCode(LoginQuery(cfg, state, challenge), cfg, state, challenge)
  {
    LoginNamesDiffer();
  }

  lemma ExchangedForm(cfg: Config, code: Str, flow: Flow)
    ensures Full(ExchangeForm(cfg, code, flow))
    ensures Get(ExchangeForm(cfg, code, flow), CODE) == code
  {
    assert CLIENT_SECRET[1] != CODE_VERIFIER[1];
  }

  lemma NamesDiffer()
    ensures CLIENT_SECRET !in {GRANT_TYPE, CLIENT_ID, CODE, CODE_VERIFIER, REDIRECT_URI, RESOURCE}
    ensures GRANT_TYPE !in {CLIENT_ID, CODE, CODE_VERIFIER, REDIRECT_URI, RESOURCE}
    ensures RESOURCE !in {CLIENT_ID, CODE, CODE_VERIFIER, REDIRECT_URI}
    ensures REDIRECT_URI !in {CLIENT_ID, CODE, CODE_VERIFIER} && CLIENT_ID !in {CODE, CODE_VERIFIER}
    ensures CODE != CODE_VERIFIER
  {
    assert |CLIENT_SECRET| == 13 && CLIENT_SECRET[1] == 'l' && |CODE_VERIFIER| == 13 && CODE_VERIFIER[1] == 'o';
    assert |GRANT_TYPE| == 10 && |CLIENT_ID| == 9 && |CODE| == 4 && |REDIRECT_URI| == 12 && |RESOURCE| == 8;
  }

  /**
   The exchange carries the code, the flow's own verifier and the pinned redirect_uri; the secret if the
   flow says so; and nothing else.
   */
  lemma ExchangeParameters(cfg: Config, code: Str, flow: Flow)
    ensures
      var form := ExchangeForm(cfg, code, flow);
      && Lookup(form, GRANT_TYPE) == [AUTHORIZATION_CODE] && Lookup(form, CODE) == [code]
      && Lookup(form, CODE_VERIFIER) == [flow.verifier]
      && Lookup(form, REDIRECT_URI) == [cfg.resource + "/callback"]
      && Lookup(form, CLIENT_ID) == [cfg.clientID] && RESOURCE !in form
      && Lookup(form, CLIENT_SECRET) == (if flow.useSecret then [cfg.clientSecret] else [])
      && form.Keys <= {GRANT_TYPE, CODE, CODE_VERIFIER, REDIRECT_URI, CLIENT_ID, CLIENT_SECRET}
  {
    NamesDiffer();
  }

  lemma SecretToggleHidden(cfg: Config, code: Str, verifier: Str)
    requires cfg.clientSecret != ""
    ensures Rewrite(cfg, ExchangeForm(cfg, code, Flow(verifier, true)), "") ==
            Rewrite(cfg, ExchangeForm(cfg, code, Flow(verifier, false)), "")
  {
    var with, without := ExchangeForm(cfg, code, Flow(verifier, true)), ExchangeForm(cfg, code, Flow(verifier, false));
    NamesDiffer();
    assert with == without[CLIENT_SECRET := [cfg.clientSecret]];
    assert without[CLIENT_ID := [cfg.clientID]] == without;
  }

  /** /token sends on the same form for both settings of the secret toggle, exactly when a secret is configured. */
  lemma SecretToggleHiddenIff(cfg: Config, code: Str, verifier: Str)
    ensures
      var with := Rewrite(cfg, ExchangeForm(cfg, code, Flow(verifier, true)), "");
      var without := Rewrite(cfg, ExchangeForm(cfg, code, Flow(verifier, false)), "");
      with == without <==> cfg.clientSecret != ""
  {
    if cfg.clientSecret != "" {
      SecretToggleHidden(cfg, code, verifier);
    } else {
      RewrittenForm(cfg, ExchangeForm(cfg, code, Flow(verifier, true)), "");
      RewrittenForm(cfg, ExchangeForm(cfg, code, Flow(verifier, false)), "");
      ExchangeParameters(cfg, code, Flow(verifier, true));
      ExchangeParameters(cfg, code, Flow(verifier, false));
    }
  }
}
