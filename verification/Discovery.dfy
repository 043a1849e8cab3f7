/** Endpoint resolution with a request-scoped discovery memo (crates/fabric-backends/src/auth.rs,
    `resolve_userinfo`, `resolve_introspect`, `discover`, `fetch_discovery`). */
module Discovery {
  import opened Wire
  import opened Resources

  /** A discovery document's two endpoints as they stand in it. */
  datatype Document = Document(userinfo: Option<string>, introspect: Option<string>)

  /** What a discovery request would bring at some moment. */
  datatype Reply = Transport(why: string) | Response(status: nat, body: Result<Document, string>)

  datatype AuthFailure = Unavailable(why: string) | BadRequest(why: string)

  datatype Endpoints = Endpoints(userinfo: Option<string>, introspect: Option<string>)

  datatype Want = Userinfo | Introspection

  /** Fetching and parsing, without any memo. */
  function Fetch(reply: Reply): Result<Endpoints, AuthFailure> {
    match reply
    case Transport(why) => Err(Unavailable(why))
    case Response(status, body) =>
      if !(200 <= status <= 299) then Err(BadRequest("OIDC discovery failed"))
      else
        match body
        case Err(why) => Err(BadRequest("invalid discovery document: " + why))
        case Ok(doc) => Ok(Endpoints(NonEmpty(doc.userinfo), NonEmpty(doc.introspect)))
  }

  function Override(config: AuthConfig, want: Want): Option<string> {
    if want.Userinfo? then config.userinfoUrl else config.introspectUrl
  }

  /** Picks the wanted endpoint. */
  function PickEndpoint(endpoints: Endpoints, want: Want): Result<string, AuthFailure> {
    match want
    case Userinfo =>
      if endpoints.userinfo.Some? then Ok(endpoints.userinfo.value)
      else Err(BadRequest("issuer exposes no userinfo_endpoint"))
    case Introspection =>
      if endpoints.introspect.Some? then Ok(endpoints.introspect.value)
      else Err(BadRequest("issuer exposes no introspection_endpoint"))
  }

  /** Introspection is refused outright when no client is configured for it. */
  predicate Disabled(config: AuthConfig, want: Want) {
    want.Introspection? && config.clientId == ""
  }

  function DisabledError(): AuthFailure {
    BadRequest("introspect requires config.auth.client_id/client_secret")
  }

  /** Resolution without a memo: explicit override, else a fresh discovery. */
  function Uncached(config: AuthConfig, want: Want, reply: Reply): Result<string, AuthFailure> {
    if Disabled(config, want) then Err(DisabledError())
    else if Override(config, want).Some? then Ok(Override(config, want).value)
    else
      match Fetch(reply)
      case Err(error) => Err(error)
      case Ok(endpoints) => PickEndpoint(endpoints, want)
  }

  /** One resolution: what is wanted, and what the issuer would answer if asked now. */
  datatype Ask = Ask(want: Want, reply: Reply)

  predicate Needs(config: AuthConfig, ask: Ask) {
    !Disabled(config, ask.want) && Override(config, ask.want).None?
  }

  /** The first document that was obtained by a resolution that needed one. */
  function FirstDocument(config: AuthConfig, asks: seq<Ask>): Option<Endpoints> {
    if asks == [] then None
    else if Needs(config, asks[0]) && Fetch(asks[0].reply).Ok? then Some(Fetch(asks[0].reply).value)
    else FirstDocument(config, asks[1..])
  }

  /** What a resolution yields after the given earlier ones: everything comes from the first document,
      and until there is one each resolution stands on its own. */
  function Prescribed(config: AuthConfig, past: seq<Ask>, ask: Ask): Result<string, AuthFailure> {
    if Needs(config, ask) && FirstDocument(config, past).Some?
    then PickEndpoint(FirstDocument(config, past).value, ask.want)
    else Uncached(config, ask.want, ask.reply)
  }

  /** Whether a resolution goes to the network. */
  predicate Fetches(config: AuthConfig, past: seq<Ask>, ask: Ask) {
    Needs(config, ask) && FirstDocument(config, past).None?
  }

  /** Successful fetches over a run. */
  function Successes(config: AuthConfig, asks: seq<Ask>): nat {
    if asks == [] then 0
    else
      var past, ask := asks[..|asks| - 1], asks[|asks| - 1];
      Successes(config, past) + if Fetches(config, past, ask) && Fetch(ask.reply).Ok? then 1 else 0
  }

  lemma {:induction false} FirstDocumentSnoc(config: AuthConfig, asks: seq<Ask>, ask: Ask)
    ensures FirstDocument(config, asks + [ask]) ==
      if FirstDocument(config, asks).Some? then FirstDocument(config, asks)
      else if Needs(config, ask) && Fetch(ask.reply).Ok? then Some(Fetch(ask.reply).value) else None
  {
    if asks == [] {
      assert asks + [ask] == [ask];
      assert [ask][1..] == [];
      assert FirstDocument(config, [ask][1..]).None?;
    } else {
      assert (asks + [ask])[1..] == asks[1..] + [ask];
      FirstDocumentSnoc(config, asks[1..], ask);
    }
  }

  // -- What a resolution must yield, on the raw answers of the issuer ----------------------------

  /** A resolution that has to ask the issuer: no override for what it wants, and introspection enabled. */
  ghost predicate MustAsk(config: AuthConfig, want: Want) {
    match want
    case Userinfo => config.userinfoUrl.None?
    case Introspection => config.clientId != "" && config.introspectUrl.None?
  }

  /** An answer that carries a document. */
  ghost predicate Serves(reply: Reply) {
    reply.Response? && 200 <= reply.status <= 299 && reply.body.Ok?
  }

  /** The f-th resolution is the first that has to ask and is served. */
  ghost predicate FirstServed(config: AuthConfig, asks: seq<Ask>, f: nat) {
    && f < |asks| && MustAsk(config, asks[f].want) && Serves(asks[f].reply)
    && forall j :: 0 <= j < f ==> !(MustAsk(config, asks[j].want) && Serves(asks[j].reply))
  }

  /** A field of a document, which must be there and not be empty. */
  ghost predicate IsField(field: Option<string>, r: Result<string, AuthFailure>) {
    if field.Some? && field.value != "" then r == Ok(field.value) else r.Err? && r.error.BadRequest?
  }

  /** Nothing was served: the failure says whether the issuer could be reached. */
  ghost predicate Unserved(reply: Reply, r: Result<string, AuthFailure>) {
    r.Err? && (reply.Transport? ==> r.error == Unavailable(reply.why)) && (reply.Response? ==> r.error.BadRequest?)
  }

  /** The right outcome of the i-th resolution of a run: the override of what is wanted if there is one, and
      otherwise that very field of the first document the run obtained. */
  ghost predicate ResolvedRight(config: AuthConfig, asks: seq<Ask>, i: nat, r: Result<string, AuthFailure>) {
    && i < |asks|
    && match asks[i].want
       case Userinfo =>
         if config.userinfoUrl.Some? then r == Ok(config.userinfoUrl.value)
         else
           && (forall f: nat :: FirstServed(config, asks, f) && f <= i ==> IsField(asks[f].reply.body.value.userinfo, r))
           && ((forall f: nat :: FirstServed(config, asks, f) ==> f > i) ==> Unserved(asks[i].reply, r))
       case Introspection =>
         if config.clientId == "" then r.Err? && r.error.BadRequest?
         else if config.introspectUrl.Some? then r == Ok(config.introspectUrl.value)
         else
           && (forall f: nat :: FirstServed(config, asks, f) && f <= i ==> IsField(asks[f].reply.body.value.introspect, r))
           && ((forall f: nat :: FirstServed(config, asks, f) ==> f > i) ==> Unserved(asks[i].reply, r))
  }

  lemma {:induction false} FirstDocumentByPlace(config: AuthConfig, asks: seq<Ask>)
    ensures forall f: nat :: FirstServed(config, asks, f) ==>
      && FirstDocument(config, asks).Some?
      && Fetch(asks[f].reply) == Ok(FirstDocument(config, asks).value)
    ensures FirstDocument(config, asks).Some? ==> exists f: nat :: FirstServed(config, asks, f)
    decreases |asks|
  {
    if asks != [] {
      var past, ask := asks[..|asks| - 1], asks[|asks| - 1];
      assert asks == past + [ask];
      FirstDocumentByPlace(config, past);
      FirstDocumentSnoc(config, past, ask);
      forall f: nat | f < |past| ensures FirstServed(config, asks, f) <==> FirstServed(config, past, f) {
      }
      if FirstDocument(config, past).None? && FirstDocument(config, asks).Some? {
        NoneServed(config, past);
        assert FirstServed(config, asks, |past|);
      }
    }
  }

  /** Without a document nothing was served. */
  lemma {:induction false} NoneServed(config: AuthConfig, asks: seq<Ask>)
    requires FirstDocument(config, asks).None?
    ensures forall j :: 0 <= j < |asks| ==> !(MustAsk(config, asks[j].want) && Serves(asks[j].reply))
    decreases |asks|
  {
    if asks != [] {
      NoneServed(config, asks[1..]);
      forall j | 0 <= j < |asks| ensures !(MustAsk(config, asks[j].want) && Serves(asks[j].reply)) {
        assert j > 0 ==> asks[j] == asks[1..][j - 1];
      }
    }
  }

  lemma FetchYieldsFields(reply: Reply, want: Want)
    ensures Fetch(reply).Ok? <==> Serves(reply)
    ensures Serves(reply) ==> IsField(
      if want.Userinfo? then reply.body.value.userinfo else reply.body.value.introspect, PickEndpoint(Fetch(reply).value, want))
    ensures !Serves(reply) ==> Unserved(reply, Err(Fetch(reply).error))
  {
  }

  lemma PrescribedIsRight(config: AuthConfig, asks: seq<Ask>, i: nat)
    requires i < |asks|
    ensures ResolvedRight(config, asks, i, Prescribed(config, asks[..i], asks[i]))
  {
    var past, ask := asks[..i], asks[i];
    FirstDocumentByPlace(config, past);
    FetchYieldsFields(ask.reply, ask.want);
    forall f: nat | f < i ensures FirstServed(config, asks, f) <==> FirstServed(config, past, f) {
    }
    if FirstDocument(config, past).Some? {
      var f: nat :| FirstServed(config, past, f);
      FetchYieldsFields(asks[f].reply, ask.want);
    } else {
      NoneServed(config, past);
      forall j | 0 <= j < i ensures !(MustAsk(config, asks[j].want) && Serves(asks[j].reply)) {
        assert past[j] == asks[j];
      }
      assert FirstServed(config, asks, i) <==> MustAsk(config, ask.want) && Serves(ask.reply);
      forall f: nat | FirstServed(config, asks, f) ensures f >= i {
      }
    }
  }

  /** The object: configuration and memo. `asked` is the run so far. */
  class AuthState {
    const config: AuthConfig
    var discovery: Option<Endpoints>
    var fetches: nat
    ghost var asked: seq<Ask>

    ghost predicate Valid()
      reads this
    {
      discovery == FirstDocument(config, asked)
    }

    constructor (config: AuthConfig)
      ensures Valid() && this.config == config && asked == [] && fetches == 0
    {
      this.config := config;
      discovery := None;
      fetches := 0;
      asked := [];
    }

    /** Returns the memo, fetching only when there is none; a failed fetch is not remembered. */
    method Discover(reply: Reply) returns (r: Result<Endpoints, AuthFailure>)
      modifies `discovery, `fetches
      ensures old(discovery).Some? ==>
        r == Ok(old(discovery).value) && discovery == old(discovery) && fetches == old(fetches)
      ensures old(discovery).None? ==>
        && r == Fetch(reply) && fetches == old(fetches) + 1
        && discovery == if r.Ok? then Some(r.value) else None
    {
      if discovery.Some? {
        return Ok(discovery.value);
      }
      fetches := fetches + 1;
      r := Fetch(reply);
      if r.Ok? {
        discovery := Some(r.value);
      }
    }

    /** Resolves an endpoint as prescribed by the run, going to the network exactly when it must: the override
        of what is wanted, or else that field of the first document obtained. */
    method Resolve(want: Want, reply: Reply) returns (r: Result<string, AuthFailure>)
      requires Valid()
      modifies this
      ensures Valid() && asked == old(asked) + [Ask(want, reply)]
      ensures r == Prescribed(config, old(asked), Ask(want, reply))
      ensures ResolvedRight(config, asked, |old(asked)|, r)
      ensures fetches == old(fetches) + if Fetches(config, old(asked), Ask(want, reply)) then 1 else 0
    {
      FirstDocumentSnoc(config, asked, Ask(want, reply));
      PrescribedIsRight(config, asked + [Ask(want, reply)], |asked|);
      assert (asked + [Ask(want, reply)])[..|asked|] == asked;
      asked := asked + [Ask(want, reply)];
      if Disabled(config, want) {
        return Err(DisabledError());
      }
      if Override(config, want).Some? {
        return Ok(Override(config, want).value);
      }
      var found := Discover(reply);
      r := if found.Err? then Err(found.error) else PickEndpoint(found.value, want);
    }
  }

  // -- Over whole runs ------------------------------------------------------------------------

  /** At most one discovery ever succeeds in a run, and one has exactly when there is a memo. */
  lemma {:induction false} AtMostOneDiscoverySucceeds(config: AuthConfig, asks: seq<Ask>)
    ensures Successes(config, asks) == if FirstDocument(config, asks).Some? then 1 else 0
    decreases |asks|
  {
    if asks != [] {
      var past, ask := asks[..|asks| - 1], asks[|asks| - 1];
      AtMostOneDiscoverySucceeds(config, past);
      FirstDocumentSnoc(config, past, ask);
      assert asks == past + [ask];
    }
  }

  /** The memo never changes: all later resolutions read the first document. */
  lemma {:induction false} MemoIsForGood(config: AuthConfig, past: seq<Ask>, more: seq<Ask>)
    requires FirstDocument(config, past).Some?
    ensures FirstDocument(config, past + more) == FirstDocument(config, past)
    decreases |more|
  {
    if more == [] {
      assert past + more == past;
    } else {
      var n := |more| - 1;
      MemoIsForGood(config, past, more[..n]);
      FirstDocumentSnoc(config, past + more[..n], more[n]);
      assert past + more == past + more[..n] + [more[n]];
    }
  }

  /** With an issuer that always serves the same document, memo and no memo cannot be told apart. */
  lemma StableIssuerHidesTheMemo(config: AuthConfig, past: seq<Ask>, ask: Ask, doc: Endpoints)
    requires forall i :: 0 <= i < |past| ==> Fetch(past[i].reply).Ok? ==> Fetch(past[i].reply) == Ok(doc)
    requires Fetch(ask.reply) == Ok(doc)
    ensures Prescribed(config, past, ask) == Uncached(config, ask.want, ask.reply)
  {
    FirstDocumentIsThatDocument(config, past, doc);
  }

  lemma {:induction false} FirstDocumentIsThatDocument(config: AuthConfig, asks: seq<Ask>, doc: Endpoints)
    requires forall i :: 0 <= i < |asks| ==> Fetch(asks[i].reply).Ok? ==> Fetch(asks[i].reply) == Ok(doc)
    ensures FirstDocument(config, asks).Some? ==> FirstDocument(config, asks) == Some(doc)
    decreases |asks|
  {
    if asks != [] {
      FirstDocumentIsThatDocument(config, asks[1..], doc);
    }
  }

  /** A kind of endpoint with an explicit override never goes to the network. */
  lemma {:induction false} OverridesNeverFetch(config: AuthConfig, asks: seq<Ask>)
    requires forall i :: 0 <= i < |asks| ==> Override(config, asks[i].want).Some?
    ensures FirstDocument(config, asks).None? && Successes(config, asks) == 0
    ensures forall i :: 0 <= i < |asks| ==> !Fetches(config, asks[..i], asks[i])
    decreases |asks|
  {
    if asks != [] {
      var past, ask := asks[..|asks| - 1], asks[|asks| - 1];
      OverridesNeverFetch(config, past);
      FirstDocumentSnoc(config, past, ask);
      assert asks == past + [ask];
    }
  }
}
