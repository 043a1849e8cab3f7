/** What a client is told, read off the frames and the outside world alone: every reply to a call and the
    answer to every opening, field by field, with the texts that go over the wire. */
module Replies {
  import opened Wire
  import opened Resources
  import opened ClientAuth
  import opened Numerals
  import opened SessionSpec
  import opened Ledger
  import opened DeedSpec
  import opened Sessions
  import opened Conduct
  import opened Exposure
  import opened Daemons

  // -- The vocabulary of the statements --------------------------------------------------

  ghost predicate Told(r: Result<string, EgressError>, source: string, code: string, message: string, owner: Owner) {
    r.Err? && r.error.source == source && r.error.code.Text() == code && r.error.message == message && r.error.owner == owner
  }

  /** The first call of a kind, at or before the i-th request. */
  ghost predicate FirstOf(kind: Kind, xs: seq<Exchange>, f: nat, i: nat) {
    f <= i < |xs| && Calls(xs[f], kind) && forall j :: 0 <= j < f ==> !Calls(xs[j], kind)
  }

  /** Calls of a kind among the first n requests. */
  function Earlier(kind: Kind, xs: seq<Exchange>, n: nat): nat
    requires n <= |xs|
  {
    if n == 0 then 0 else Earlier(kind, xs, n - 1) + if Calls(xs[n - 1], kind) then 1 else 0
  }

  /** The breaker said no to the db. */
  ghost predicate Refused(v: View, kind: Kind) {
    kind == Db && v.guarded && !v.allow
  }

  /** The connect of the kind's first call failed; amq connects anew for every operation. */
  ghost predicate Unreachable(kind: Kind, first: Exchange) {
    kind != Amq && first.connect.Err?
  }

  ghost predicate Unreadable(codec: Codec, kind: Kind, payload: string) {
    match kind
    case Db => codec.db(payload).Err?
    case Mongo => codec.mongo(payload).Err?
    case Auth => codec.auth(payload).Err?
    case _ => false
  }

  /** As many mail calls came before as the budget allows. */
  ghost predicate Spent(v: View, kind: Kind, xs: seq<Exchange>, i: nat)
    requires i <= |xs|
  {
    && kind == Mail && v.configs.mail.Some?
    && 0 < v.configs.mail.value.maxSends <= Earlier(Mail, xs, i)
  }

  /** The i-th request is a call that is handed to its kind's driver. */
  ghost predicate GetsThrough(v: View, kind: Kind, xs: seq<Exchange>, f: nat, i: nat)
    requires FirstOf(kind, xs, f, i) && Calls(xs[i], kind)
  {
    && v.configs.For(kind).Some?
    && !Refused(v, kind) && !Unreachable(kind, xs[f])
    && !Unreadable(v.codec, kind, xs[i].request.call.payload)
    && !Spent(v, kind, xs, i)
  }

  ghost predicate TellsUnconfigured(kind: Kind, r: Result<string, EgressError>) {
    match kind
    case Db => Told(r, "db", "DB_NOT_CONFIGURED", "db" + " egress is not configured", Developer)
    case Mongo => Told(r, "mongo", "MONGO_NOT_CONFIGURED", "mongo" + " egress is not configured", Developer)
    case Mail => Told(r, "mail", "MAIL_NOT_CONFIGURED", "mail" + " egress is not configured", Developer)
    case Redis => Told(r, "redis", "REDIS_NOT_CONFIGURED", "redis" + " egress is not configured", Developer)
    case Amq => Told(r, "amq", "AMQ_NOT_CONFIGURED", "amq" + " egress is not configured", Developer)
    case Auth => Told(r, "auth", "AUTH_NOT_CONFIGURED", "auth" + " egress is not configured", Developer)
  }

  /** A connect failure: the message is the driver's; three kinds have one code of their own. */
  ghost predicate TellsUnreachable(kind: Kind, fault: Fault, r: Result<string, EgressError>) {
    match kind
    case Db => Told(r, "db", "DB_CONNECTION", fault.message, Operator)
    case Mail => Told(r, "mail", "MAIL_ERROR", fault.message, Operator)
    case Auth => Told(r, "auth", "AUTH_UNAVAILABLE", fault.message, Operator)
    case Mongo => Told(r, "mongo", fault.code, fault.message, fault.owner)
    case Redis => Told(r, "redis", fault.code, fault.message, fault.owner)
    case Amq => false
  }

  ghost predicate TellsUnreadable(codec: Codec, kind: Kind, payload: string, r: Result<string, EgressError>)
    requires Unreadable(codec, kind, payload)
  {
    match kind
    case Db => Told(r, "db", "DB_BAD_PAYLOAD", "invalid db payload: " + codec.db(payload).error, Developer)
    case Mongo => Told(r, "mongo", "MONGO_QUERY", "invalid mongo payload: " + codec.mongo(payload).error, Developer)
    case Auth => Told(r, "auth", "AUTH_REQUEST", "invalid auth payload: " + codec.auth(payload).error, Developer)
  }

  /** The driver's own answer: its json, or its fault with every field in its place. */
  ghost predicate TellsOutcome(kind: Kind, outcome: Result<Outcome, Fault>, r: Result<string, EgressError>) {
    match outcome
    case Ok(o) => r == Ok(o.json)
    case Err(fault) =>
      match kind
      case Db => Told(r, "db", fault.code, fault.message, fault.owner)
      case Mongo => Told(r, "mongo", fault.code, fault.message, fault.owner)
      case Mail => Told(r, "mail", fault.code, fault.message, fault.owner)
      case Redis => Told(r, "redis", fault.code, fault.message, fault.owner)
      case Amq => Told(r, "amq", fault.code, fault.message, fault.owner)
      case Auth => Told(r, "auth", fault.code, fault.message, fault.owner)
  }

  /** The right answer to the i-th request, a call of `kind` whose first call is the f-th. */
  ghost predicate ToldTruly(v: View, kind: Kind, xs: seq<Exchange>, f: nat, i: nat, r: Result<string, EgressError>)
    requires FirstOf(kind, xs, f, i) && Calls(xs[i], kind)
  {
    var payload := xs[i].request.call.payload;
    if v.configs.For(kind).None? then TellsUnconfigured(kind, r)
    else if Refused(v, kind) then Told(r, "db", "DB_CIRCUIT_OPEN", "db circuit breaker open", Operator)
    else if Unreachable(kind, xs[f]) then TellsUnreachable(kind, xs[f].connect.error, r)
    else if Unreadable(v.codec, kind, payload) then TellsUnreadable(v.codec, kind, payload, r)
    else if Spent(v, kind, xs, i) then
      Told(r, "mail", "MAIL_OP_LIMIT", "too many mail.send calls: limit is " + Decimal(v.configs.mail.value.maxSends), Developer)
    else TellsOutcome(kind, xs[i].outcome, r)
  }

  // -- The first call, by its place ---------------------------------------------------------

  lemma FirstOfIsFirstCall(kind: Kind, xs: seq<Exchange>, f: nat, i: nat, n: nat)
    requires FirstOf(kind, xs, f, i) && i < n <= |xs|
    ensures FirstCall(kind, xs[..n]) == Some(xs[f])
  {
    assert xs[..n][..f] == xs[..f];
    FirstCallMeansSome(kind, xs[..f]);
    FirstCallStays(kind, xs[..n], f);
  }

  lemma FirstOfExists(kind: Kind, xs: seq<Exchange>, i: nat) returns (f: nat)
    requires i < |xs| && Calls(xs[i], kind)
    ensures FirstOf(kind, xs, f, i)
  {
    FirstCallMeansSome(kind, xs[..i + 1]);
    assert xs[..i + 1][i] == xs[i];
    f := FirstCallHasPlace(kind, xs[..i + 1]);
    assert xs[..i + 1][..f] == xs[..f];
    FirstCallMeansSome(kind, xs[..f]);
    forall j | 0 <= j < f ensures !Calls(xs[j], kind) {
      assert xs[..f][j] == xs[j];
    }
  }

  lemma ConnectionByPlace(v: View, kind: Kind, xs: seq<Exchange>, f: nat, i: nat)
    requires FirstOf(kind, xs, f, i) && kind != Amq
    ensures Connection(v, kind, xs[..i] + [xs[i]]) == Some(ConnectOutcome(v, kind, xs[f]))
  {
    assert xs[..i] + [xs[i]] == xs[..i + 1];
    FirstOfIsFirstCall(kind, xs, f, i, i + 1);
  }

  lemma ConnectedByPlace(v: View, kind: Kind, xs: seq<Exchange>, f: nat, i: nat)
    requires FirstOf(kind, xs, f, i)
    ensures var c := Connection(v, kind, xs[..i] + [xs[i]]);
      c.Some? && (c.value.Ok? <==> !Refused(v, kind) && !Unreachable(kind, xs[f]))
  {
    if kind != Amq {
      ConnectionByPlace(v, kind, xs, f, i);
    }
  }

  lemma UnpackByPayload(codec: Codec, kind: Kind, payload: string)
    ensures Unpack(codec, kind, payload).Err? <==> Unreadable(codec, kind, payload)
    ensures Unreadable(codec, kind, payload) ==>
      TellsUnreadable(codec, kind, payload, Err(Unpack(codec, kind, payload).error))
  {
  }

  // -- The budget, by counting calls ----------------------------------------------------------

  /** Once its first call connected, mail operations are the mail calls, up to the budget. */
  lemma {:induction false} MailPasses(v: View, xs: seq<Exchange>, f: nat, i: nat, n: nat)
    requires FirstOf(Mail, xs, f, i) && xs[f].connect.Ok? && v.configs.mail.Some?
    requires n <= i + 1
    ensures var max, calls := v.configs.mail.value.maxSends, Earlier(Mail, xs, n);
      |History(v, Mail, xs[..n])| == if max == 0 || calls <= max then calls else max
    decreases n
  {
    if n > 0 {
      var past, x := xs[..n - 1], xs[n - 1];
      assert xs[..n] == past + [x];
      MailPasses(v, xs, f, i, n - 1);
      HistorySnoc(v, Mail, past, x);
      if Calls(x, Mail) {
        MailReaches(v, xs, f, n - 1);
      }
    }
  }

  lemma MailReaches(v: View, xs: seq<Exchange>, f: nat, i: nat)
    requires i < |xs| && Calls(xs[i], Mail) && v.configs.mail.Some?
    requires f < |xs| && Calls(xs[f], Mail) && (forall j :: 0 <= j < f ==> !Calls(xs[j], Mail)) && xs[f].connect.Ok?
    ensures Reached(v, xs[..i], xs[i]) <==> !OverBudget(v, Mail, xs[..i])
  {
    assert f <= i;
    ConnectedByPlace(v, Mail, xs, f, i);
  }

  lemma SpentByCount(v: View, xs: seq<Exchange>, f: nat, i: nat)
    requires FirstOf(Mail, xs, f, i) && xs[f].connect.Ok? && v.configs.mail.Some?
    ensures OverBudget(v, Mail, xs[..i]) <==> Spent(v, Mail, xs, i)
  {
    MailPasses(v, xs, f, i, i);
  }

  // -- Replies to calls -------------------------------------------------------------------------

  lemma UnsettledIsToldTruly(v: View, kind: Kind, xs: seq<Exchange>, f: nat, i: nat)
    requires FirstOf(kind, xs, f, i) && Calls(xs[i], kind)
    requires v.configs.For(kind).None? || Refused(v, kind) || Unreachable(kind, xs[f])
    ensures ToldTruly(v, kind, xs, f, i, CallResult(v, xs[..i], xs[i]))
  {
    if v.configs.For(kind).None? {
      UnconfiguredIsTold(kind);
    } else {
      ConnectionByPlace(v, kind, xs, f, i);
      if !Refused(v, kind) {
        UnreachableIsTold(kind, xs[f].connect.error);
      }
    }
  }

  lemma UnconfiguredIsTold(kind: Kind)
    ensures TellsUnconfigured(kind, Err(NotConfiguredError(kind)))
  {
  }

  lemma UnreachableIsTold(kind: Kind, fault: Fault)
    requires kind != Amq
    ensures TellsUnreachable(kind, fault, Err(ConnectError(kind, fault)))
  {
  }

  lemma OutcomeIsTold(kind: Kind, outcome: Result<Outcome, Fault>)
    ensures TellsOutcome(kind, outcome,
      match outcome case Ok(o) => Ok(o.json) case Err(fault) => Err(OperationError(kind, fault)))
  {
  }

  lemma SettledIsToldTruly(v: View, kind: Kind, xs: seq<Exchange>, f: nat, i: nat)
    requires FirstOf(kind, xs, f, i) && Calls(xs[i], kind)
    requires v.configs.For(kind).Some? && !Refused(v, kind) && !Unreachable(kind, xs[f])
    ensures ToldTruly(v, kind, xs, f, i, CallResult(v, xs[..i], xs[i]))
  {
    ConnectedByPlace(v, kind, xs, f, i);
    UnpackByPayload(v.codec, kind, xs[i].request.call.payload);
    OutcomeIsTold(kind, xs[i].outcome);
    if kind == Mail {
      SpentByCount(v, xs, f, i);
    }
  }

  lemma CallIsToldTruly(v: View, kind: Kind, xs: seq<Exchange>, f: nat, i: nat)
    requires FirstOf(kind, xs, f, i) && Calls(xs[i], kind)
    ensures ToldTruly(v, kind, xs, f, i, CallResult(v, xs[..i], xs[i]))
  {
    if v.configs.For(kind).Some? && !Refused(v, kind) && !Unreachable(kind, xs[f]) {
      SettledIsToldTruly(v, kind, xs, f, i);
    } else {
      UnsettledIsToldTruly(v, kind, xs, f, i);
    }
  }

  /** A call reaches dispatch exactly when nothing stands in its way. */
  lemma ReachedByPlace(v: View, kind: Kind, xs: seq<Exchange>, f: nat, i: nat)
    requires FirstOf(kind, xs, f, i) && Calls(xs[i], kind)
    ensures Reached(v, xs[..i], xs[i]) <==> GetsThrough(v, kind, xs, f, i)
  {
    ConnectedByPlace(v, kind, xs, f, i);
    UnpackByPayload(v.codec, kind, xs[i].request.call.payload);
    if kind == Mail && v.configs.mail.Some? && xs[f].connect.Ok? {
      SpentByCount(v, xs, f, i);
    }
  }

  /** The names under which calls reach the six kinds, and no others. */
  lemma NamesOfKinds(name: string)
    ensures KindOf(name) == Some(Db) <==> name == "db"
    ensures KindOf(name) == Some(Mongo) <==> name == "mongo"
    ensures KindOf(name) == Some(Mail) <==> name == "mail"
    ensures KindOf(name) == Some(Redis) <==> name == "redis"
    ensures KindOf(name) == Some(Amq) <==> name == "amq"
    ensures KindOf(name) == Some(Auth) <==> name == "auth"
  {
    RoutingInvertsTagging(name, Db);
    RoutingInvertsTagging(name, Mongo);
    RoutingInvertsTagging(name, Mail);
    RoutingInvertsTagging(name, Redis);
    RoutingInvertsTagging(name, Amq);
    RoutingInvertsTagging(name, Auth);
  }

  /** In every run, every reply to a call of a kind is the right one: the driver's json or its fault field by
      field when the call got through, and otherwise what stood in its way - judged by the places of the
      kind's calls among the requests, not by any state. */
  lemma RepliesAreTrue(cfg: Config, scripts: map<nat, Script>, moves: seq<Move>, sid: nat,
                       kind: Kind, f: nat, i: nat, allow: bool)
    requires sid in scripts && Possible(After(cfg, scripts, moves, sid), allow)
    requires i + 1 < |After(cfg, scripts, moves, sid).written| && FirstOf(kind, scripts[sid].exchanges, f, i)
    requires Calls(scripts[sid].exchanges[i], kind)
    ensures Open(cfg.Ground(), scripts[sid]).Opened?
    ensures var reply := After(cfg, scripts, moves, sid).written[i + 1];
      reply.Reply? && ToldTruly(ViewOf(cfg.Ground(), scripts[sid], allow), kind, scripts[sid].exchanges, f, i, reply.result)
  {
    AnswersArePrescribed(cfg, scripts, moves, sid, i, allow);
    CallIsToldTruly(ViewOf(cfg.Ground(), scripts[sid], allow), kind, scripts[sid].exchanges, f, i);
  }

  lemma AnswersArePrescribed(cfg: Config, scripts: map<nat, Script>, moves: seq<Move>, sid: nat, i: nat, allow: bool)
    requires sid in scripts && Possible(After(cfg, scripts, moves, sid), allow)
    requires i + 1 < |After(cfg, scripts, moves, sid).written| && i < |scripts[sid].exchanges|
    ensures Open(cfg.Ground(), scripts[sid]).Opened?
    ensures After(cfg, scripts, moves, sid).written[i + 1]
         == Answer(ViewOf(cfg.Ground(), scripts[sid], allow), scripts[sid].exchanges[..i], scripts[sid].exchanges[i])
  {
    EverySessionKeepsToItsScript(cfg, scripts, moves, sid);
    TraceAt(cfg.Ground(), scripts[sid], allow, i);
  }

  /** In every run, a call under any other name is told that there is no such egress. */
  lemma UnknownNamesAreTold(cfg: Config, scripts: map<nat, Script>, moves: seq<Move>, sid: nat, i: nat)
    requires sid in scripts && i < |scripts[sid].exchanges| && i + 1 < |After(cfg, scripts, moves, sid).written|
    requires scripts[sid].exchanges[i].request.CallFrame?
    requires scripts[sid].exchanges[i].request.call.name !in {"db", "mongo", "mail", "redis", "amq", "auth"}
    ensures var reply, name := After(cfg, scripts, moves, sid).written[i + 1], scripts[sid].exchanges[i].request.call.name;
      reply.Reply? && Told(reply.result, "engine", "IO_UNKNOWN", "unknown egress '" + name + "'", Developer)
  {
    var allow :| Possible(After(cfg, scripts, moves, sid), allow);
    AnswersArePrescribed(cfg, scripts, moves, sid, i, allow);
    NamesOfKinds(scripts[sid].exchanges[i].request.call.name);
  }

  // -- Openings ---------------------------------------------------------------------------------

  /** The order in which names are resolved. */
  function Rank(kind: Kind): nat {
    match kind
    case Db => 0
    case Mongo => 1
    case Mail => 2
    case Redis => 3
    case Amq => 4
    case Auth => 5
  }

  /** The name given for a kind is in the table under the session's own tenant. */
  ghost predicate Known(table: Table, init: Init, kind: Kind) {
    init.Name(kind).Some? && init.Name(kind).value in table && table[init.Name(kind).value].tenant == init.tenant
  }

  ghost predicate Fails(table: Table, init: Init, kind: Kind) {
    init.Name(kind).Some? && !(Known(table, init, kind) && table[init.Name(kind).value].binding.Kind() == kind)
  }

  ghost predicate StopsAt(table: Table, init: Init, kind: Kind) {
    Fails(table, init, kind) && forall other :: Rank(other) < Rank(kind) ==> !Fails(table, init, other)
  }

  ghost predicate TellsUnresolved(table: Table, init: Init, kind: Kind, response: Response)
    requires init.Name(kind).Some?
  {
    var name := init.Name(kind).value;
    if !Known(table, init, kind) then
      response == InitError("RESOURCE_NOT_FOUND", "no operator resource named `" + name + "`")
    else response == InitError("RESOURCE_KIND_MISMATCH", "resource `" + name + "` is not a " + Tag(kind) + " resource")
  }

  ghost predicate TellsRejected(auth: Authenticator, token: Option<string>, verdict: Result<(), string>, response: Response) {
    if token.None? then response == InitError("UNAUTHENTICATED", "missing client auth token")
    else if auth.ServiceAccount? then verdict.Err? && response == InitError("UNAUTHENTICATED", verdict.error)
    else response == InitError("UNAUTHENTICATED", "client auth token rejected")
  }

  /** The right answer to a first frame. */
  ghost predicate OpenedTruly(g: Ground, script: Script, response: Response) {
    && script.first.Some?
    && match script.first.value
       case CallFrame(_) => response == ProtocolError("expected Init as the first frame")
       case DrainFrame => response == ProtocolError("expected Init as the first frame")
       case InitFrame(init) =>
         if !LetIn(script.authenticator, init.token, script.verdict)
         then TellsRejected(script.authenticator, init.token, script.verdict, response)
         else
           && (forall kind :: StopsAt(g.table, init, kind) ==> TellsUnresolved(g.table, init, kind, response))
           && ((forall kind :: !Fails(g.table, init, kind)) ==> response == Ack)
  }

  lemma FateFails(table: Table, init: Init, kind: Kind)
    ensures Fate(Visible(table, init.tenant), init, kind).Err? <==> Fails(table, init, kind)
    ensures Fails(table, init, kind) ==> var e := Fate(Visible(table, init.tenant), init, kind).error;
      TellsUnresolved(table, init, kind, InitError(e.Code(), e.Message()))
  {
  }

  lemma ResolvesUnlessItFails(table: Table, init: Init)
    ensures (forall kind :: !Fails(table, init, kind)) <==> Resolve(table, init).Ok?
    ensures forall kind :: StopsAt(table, init, kind) ==>
      Resolve(table, init).Err? && Fate(Visible(table, init.tenant), init, kind) == Err(Resolve(table, init).error)
  {
    ResolveIsFaithful(table, init);
    forall kind ensures Fate(Visible(table, init.tenant), init, kind).Err? <==> Fails(table, init, kind) {
      FateFails(table, init, kind);
    }
    forall i: nat | i < |KINDS| ensures Rank(KINDS[i]) == i {
    }
    forall kind ensures KINDS[Rank(kind)] == kind {
    }
  }

  lemma OpeningIsToldTruly(g: Ground, script: Script, allow: bool)
    requires Trace(g, script, allow) != []
    ensures OpenedTruly(g, script, Trace(g, script, allow)[0])
  {
    if script.first.Some? && script.first.value.InitFrame? {
      var init := script.first.value.init;
      LetInIsAuthenticated(script.authenticator, init.token, script.verdict);
      ResolvesUnlessItFails(g.table, init);
      forall kind | StopsAt(g.table, init, kind) ensures Resolve(g.table, init).Err?
        && TellsUnresolved(g.table, init, kind, InitError(Resolve(g.table, init).error.Code(), Resolve(g.table, init).error.Message()))
      {
        FateFails(g.table, init, kind);
      }
    }
  }

  /** In every run, the first thing a session does is to be judged, and the judgement is right for its provider:
      everyone, the holders of a configured secret, or those whose token the verifier finds good. */
  lemma OnlyTheRightAreLetIn(cfg: Config, scripts: map<nat, Script>, moves: seq<Move>, sid: nat)
    requires sid in scripts && Deeds(cfg, scripts, moves, sid) != []
    ensures scripts[sid].first.Some? && scripts[sid].first.value.InitFrame?
    ensures Deeds(cfg, scripts, moves, sid)[0] == Authenticated(
      LetIn(scripts[sid].authenticator, scripts[sid].first.value.init.token, scripts[sid].verdict))
  {
    var s, deeds := After(cfg, scripts, moves, sid), Deeds(cfg, scripts, moves, sid);
    var allow :| Possible(s, allow);
    InterleavedEqualsAlone(cfg, scripts, moves, sid, allow);
    PrescribedJudgesFirst(cfg.Ground(), scripts[sid], allow, TotalTold(deeds));
  }

  lemma PrescribedJudgesFirst(g: Ground, script: Script, allow: bool, total: nat)
    requires Prescribed(g, script, allow, total, |script.exchanges|) != []
    ensures script.first.Some? && script.first.value.InitFrame?
    ensures Prescribed(g, script, allow, total, |script.exchanges|)[0]
         == Authenticated(LetIn(script.authenticator, script.first.value.init.token, script.verdict))
  {
    LetInIsAuthenticated(script.authenticator, script.first.value.init.token, script.verdict);
  }

  /** In every run, the first frame a session writes is the right answer to the first frame it read: `Ack`
      exactly when the token is good and every name resolves, and otherwise what was wrong first. */
  lemma OpeningsAreTrue(cfg: Config, scripts: map<nat, Script>, moves: seq<Move>, sid: nat)
    requires sid in scripts && After(cfg, scripts, moves, sid).written != []
    ensures OpenedTruly(cfg.Ground(), scripts[sid], After(cfg, scripts, moves, sid).written[0])
  {
    var allow :| Possible(After(cfg, scripts, moves, sid), allow);
    EverySessionKeepsToItsScript(cfg, scripts, moves, sid);
    OpeningIsToldTruly(cfg.Ground(), scripts[sid], allow);
  }
}
