/** Client authentication at session open (crates/fabricd/src/auth.rs). Constant-time comparison is
    byte equality; the offline token verifier is asked through a function. */
module ClientAuth {
  import opened Wire

  datatype Reject = Reject(code: string, message: string)

  datatype Mode = NoAuth | StaticToken | SaToken

  datatype AuthSettings = AuthSettings(
    mode: Mode, staticToken: Option<string>, previousToken: Option<string>,
    audience: Option<string>, issuer: Option<string>)

  datatype Authenticator =
    | AcceptAll
    | SharedSecret(current: string, previous: Option<string>)
    | ServiceAccount

  /** Chooses the provider, or fails with the configuration error. */
  function Build(cfg: AuthSettings): Result<Authenticator, string> {
    match cfg.mode
    case NoAuth => Ok(AcceptAll)
    case StaticToken =>
      (match NonEmpty(cfg.staticToken)
       case None => Err("quic.auth.mode = static requires a non-empty static_token")
       case Some(current) => Ok(SharedSecret(current, NonEmpty(cfg.previousToken))))
    case SaToken =>
      if NonEmpty(cfg.issuer).None? then Err("quic.auth.mode = sa-token requires an issuer")
      else if NonEmpty(cfg.audience).None? then Err("quic.auth.mode = sa-token requires an audience")
      else Ok(ServiceAccount)
  }

  function Unauthenticated(message: string): Reject {
    Reject("UNAUTHENTICATED", message)
  }

  /** Accepts or rejects the presented token. `verify` is the offline verifier's verdict. */
  function Authenticate(auth: Authenticator, token: Option<string>, verify: Result<(), string>): Result<(), Reject> {
    match auth
    case AcceptAll => Ok(())
    case SharedSecret(current, previous) =>
      if token.None? then Err(Unauthenticated("missing client auth token"))
      else if token.value == current then Ok(())
      else if previous.Some? && token.value == previous.value then Ok(())
      else Err(Unauthenticated("client auth token rejected"))
    case ServiceAccount =>
      if token.None? then Err(Unauthenticated("missing client auth token"))
      else
        match verify
        case Ok(_) => Ok(())
        case Err(reason) => Err(Unauthenticated(reason))
  }

  /** Who is let in, said without the code: everyone, the holders of a secret, or those whose token the
      verifier finds good. */
  ghost predicate LetIn(auth: Authenticator, token: Option<string>, verdict: Result<(), string>) {
    match auth
    case AcceptAll => true
    case SharedSecret(current, previous) => token == Some(current) || (previous.Some? && token == previous)
    case ServiceAccount => token.Some? && verdict.Ok?
  }

  lemma LetInIsAuthenticated(auth: Authenticator, token: Option<string>, verdict: Result<(), string>)
    ensures Authenticate(auth, token, verdict).Ok? <==> LetIn(auth, token, verdict)
    ensures Authenticate(auth, token, verdict).Err? ==>
      var reject := Authenticate(auth, token, verdict).error;
      && reject.code == "UNAUTHENTICATED"
      && (token.None? ==> reject.message == "missing client auth token")
      && (token.Some? && auth.ServiceAccount? ==> verdict == Err(reject.message))
      && (token.Some? && auth.SharedSecret? ==> reject.message == "client auth token rejected")
  {
  }

  ghost predicate Given(text: Option<string>) {
    text.Some? && text.value != ""
  }

  /** Which provider each mode yields, with which settings, and exactly when it can be built. */
  lemma ModesYieldTheirProviders(cfg: AuthSettings)
    ensures cfg.mode == NoAuth ==> Build(cfg) == Ok(AcceptAll)
    ensures cfg.mode == StaticToken ==>
      if !Given(cfg.staticToken) then Build(cfg) == Err("quic.auth.mode = static requires a non-empty static_token")
      else
        && Build(cfg).Ok? && Build(cfg).value.SharedSecret?
        && Build(cfg).value.current == cfg.staticToken.value
        && Build(cfg).value.previous == if Given(cfg.previousToken) then cfg.previousToken else None
    ensures cfg.mode == SaToken ==>
      if !Given(cfg.issuer) then Build(cfg) == Err("quic.auth.mode = sa-token requires an issuer")
      else if !Given(cfg.audience) then Build(cfg) == Err("quic.auth.mode = sa-token requires an audience")
      else Build(cfg) == Ok(ServiceAccount)
  {
  }

  /** A secret-bearing provider that was built from configuration accepts a token exactly when it is
      one of the configured non-empty secrets; in particular it never accepts the empty token, even
      when the operator configured an empty rotation token. */
  lemma BuiltSecretAcceptsOnlySecrets(cfg: AuthSettings, token: Option<string>, verify: Result<(), string>)
    requires cfg.mode == StaticToken && Build(cfg).Ok?
    ensures Authenticate(Build(cfg).value, token, verify).Ok? <==>
      token.Some? && token.value != "" && (cfg.staticToken == token || cfg.previousToken == token)
  {
  }
}
