/** What a session must answer, stated on its history alone.

    There are no slots, caches or collectors here: the reply to a request is recomputed from the
    list of all earlier exchanges. The daemon's lazily filled, shared and interleaved state is proved
    to agree with this. */
module SessionSpec {
  import opened Wire
  import opened Resources
  import opened ClientAuth
  import opened Numerals
  import MailPolicy

  /** A driver failure after classification. */
  datatype Fault = Fault(code: string, message: string, owner: Owner)

  /** A driver success: the reply text and the figures its metric will carry. */
  datatype Outcome = Outcome(json: string, stats: Stats)

  /** One request of an open session together with what the outside world would answer while it is
      being served: the outcome of a connect attempt (a success names the client) and of the
      operation itself. An answer that is not asked for has no effect. */
  datatype Exchange = Exchange(
    request: Request, connect: Result<nat, Fault>, outcome: Result<Outcome, Fault>, durationUs: nat)

  /** JSON unpacking of the three enveloped payloads, where a missing or null inner value is `None`, and
      the libraries that mail relies on. */
  datatype Codec = Codec(
    mail: MailPolicy.Library,
    db: string -> Result<(string, Option<string>), string>,
    mongo: string -> Result<(string, Option<string>), string>,
    auth: string -> Result<string, string>)

  /** Everything a session meets outside the daemon. `first` is `None` when the stream ends or
      errors before a first frame; the stream ends or errors after the last exchange; `writable`
      tells after how many frames the writer breaks, if ever. */
  datatype Script = Script(
    authenticator: Authenticator, verdict: Result<(), string>,
    first: Option<Request>, exchanges: seq<Exchange>, writable: Option<nat>)

  /** What a session's replies may depend on besides its exchanges. `allow` is the answer the shared
      breaker gave this session, should it ever ask. */
  datatype View = View(configs: Resolved, guarded: bool, allow: bool, codec: Codec)

  datatype Args =
    | DbArgs(sql: string, paramsJson: string)
    | MongoArgs(collection: string, dataJson: string)
    | TokenArg(token: string)
    | RawArgs(payload: string)

  // -- Errors -----------------------------------------------------------------

  function UnknownName(name: string): EgressError {
    EgressError("engine", IoUnknown, "unknown egress '" + name + "'", Developer)
  }

  function NotConfiguredError(kind: Kind): EgressError {
    EgressError(Tag(kind), NotConfigured(kind), Tag(kind) + " egress is not configured", Developer)
  }

  function CircuitOpenError(): EgressError {
    EgressError("db", CircuitOpen, "db circuit breaker open", Operator)
  }

  function OpLimitError(limit: nat): EgressError {
    EgressError("mail", MailOpLimit, "too many mail.send calls: limit is " + Decimal(limit), Developer)
  }

  function OperationError(kind: Kind, fault: Fault): EgressError {
    EgressError(Tag(kind), DriverCode(fault.code), fault.message, fault.owner)
  }

  /** Connect failures: three kinds have one fixed code, the others keep the classified one. */
  function ConnectError(kind: Kind, fault: Fault): EgressError {
    match kind
    case Db => EgressError("db", DriverCode("DB_CONNECTION"), fault.message, Operator)
    case Mail => EgressError("mail", DriverCode("MAIL_ERROR"), fault.message, Operator)
    case Auth => EgressError("auth", DriverCode("AUTH_UNAVAILABLE"), fault.message, Operator)
    case _ => OperationError(kind, fault)
  }

  /** Unpacks the payload of one kind; mail, redis and amq payloads pass through untouched. */
  function Unpack(codec: Codec, kind: Kind, payload: string): Result<Args, EgressError> {
    match kind
    case Db =>
      (match codec.db(payload)
       case Ok((sql, params)) => Ok(DbArgs(sql, if params.Some? then params.value else "[]"))
       case Err(why) => Err(EgressError("db", DriverCode("DB_BAD_PAYLOAD"), "invalid db payload: " + why, Developer)))
    case Mongo =>
      (match codec.mongo(payload)
       case Ok((name, data)) => Ok(MongoArgs(name, if data.Some? then data.value else "{}"))
       case Err(why) => Err(EgressError("mongo", DriverCode("MONGO_QUERY"), "invalid mongo payload: " + why, Developer)))
    case Auth =>
      (match codec.auth(payload)
       case Ok(token) => Ok(TokenArg(token))
       case Err(why) => Err(EgressError("auth", DriverCode("AUTH_REQUEST"), "invalid auth payload: " + why, Developer)))
    case _ => Ok(RawArgs(payload))
  }

  // -- Replies from history ---------------------------------------------------

  predicate Calls(x: Exchange, kind: Kind) {
    x.request.CallFrame? && KindOf(x.request.call.name) == Some(kind)
  }

  /** The first exchange that calls a kind. */
  function FirstCall(kind: Kind, xs: seq<Exchange>): Option<Exchange> {
    if xs == [] then None
    else if Calls(xs[0], kind) then Some(xs[0])
    else FirstCall(kind, xs[1..])
  }

  /** How connecting went, decided once and for all by the first call of the kind. `amq` opens a
      connection per operation, so it is always at hand. */
  function Connection(v: View, kind: Kind, xs: seq<Exchange>): Option<Result<nat, EgressError>> {
    if kind == Amq then Some(Ok(0))
    else
      match FirstCall(kind, xs)
      case None => None
      case Some(x) => Some(ConnectOutcome(v, kind, x))
  }

  function ConnectOutcome(v: View, kind: Kind, x: Exchange): Result<nat, EgressError> {
    if kind == Db && v.guarded && !v.allow then Err(CircuitOpenError()) else Attempt(kind, x.connect)
  }

  /** What a connect attempt comes to: its client, or the error its kind reports. */
  function Attempt(kind: Kind, outcome: Result<nat, Fault>): Result<nat, EgressError> {
    match outcome
    case Ok(client) => Ok(client)
    case Err(fault) => Err(ConnectError(kind, fault))
  }

  function MetricOf(x: Exchange): Metric
    requires x.request.CallFrame?
  {
    Metric(x.request.call.action, x.durationUs, if x.outcome.Ok? then x.outcome.value.stats else NO_STATS)
  }

  /** The mail budget is spent by operations that were carried out, not by refusals. */
  predicate OverBudget(v: View, kind: Kind, past: seq<Exchange>)
    decreases |past|, 1
  {
    && kind == Mail
    && v.configs.mail.Some?
    && v.configs.mail.value.maxSends != 0
    && |History(v, Mail, past)| >= v.configs.mail.value.maxSends
  }

  /** Whether a call gets as far as its backend's dispatch. */
  predicate Reached(v: View, past: seq<Exchange>, x: Exchange)
    decreases |past|, 2
  {
    && x.request.CallFrame?
    && KindOf(x.request.call.name).Some?
    && var kind := KindOf(x.request.call.name).value;
    && v.configs.For(kind).Some?
    && Connection(v, kind, past + [x]).Some?
    && Connection(v, kind, past + [x]).value.Ok?
    && Unpack(v.codec, kind, x.request.call.payload).Ok?
    && !OverBudget(v, kind, past)
  }

  /** The metrics of a kind: one per call that reached dispatch, in order. */
  function History(v: View, kind: Kind, xs: seq<Exchange>): seq<Metric>
    decreases |xs|, 0
  {
    if xs == [] then []
    else
      var past, x := xs[..|xs| - 1], xs[|xs| - 1];
      History(v, kind, past) + (if Calls(x, kind) && Reached(v, past, x) then [MetricOf(x)] else [])
  }

  function AllMetrics(v: View, xs: seq<Exchange>): BackendMetrics {
    BackendMetrics(History(v, Db, xs), History(v, Mongo, xs), History(v, Mail, xs),
                   History(v, Redis, xs), History(v, Amq, xs), History(v, Auth, xs))
  }

  function CallResult(v: View, past: seq<Exchange>, x: Exchange): Result<string, EgressError>
    requires x.request.CallFrame?
  {
    var call := x.request.call;
    if KindOf(call.name).None? then Err(UnknownName(call.name))
    else
      var kind := KindOf(call.name).value;
      if v.configs.For(kind).None? then Err(NotConfiguredError(kind))
      else
        match Connection(v, kind, past + [x])
        case Some(Err(error)) => Err(error)
        case _ =>
          match Unpack(v.codec, kind, call.payload)
          case Err(error) => Err(error)
          case Ok(_) =>
            if OverBudget(v, kind, past) then Err(OpLimitError(v.configs.mail.value.maxSends))
            else
              match x.outcome
              case Ok(outcome) => Ok(outcome.json)
              case Err(fault) => Err(OperationError(kind, fault))
  }

  /** The reply to one request of an open session, given everything before it. */
  function Answer(v: View, past: seq<Exchange>, x: Exchange): Response {
    match x.request
    case CallFrame(_) => Reply(CallResult(v, past, x))
    case DrainFrame => Metrics(AllMetrics(v, past))
    case InitFrame(_) => ProtocolError("Init already received for this session")
  }

  function Answers(v: View, xs: seq<Exchange>): seq<Response> {
    seq(|xs|, i requires 0 <= i < |xs| => Answer(v, xs[..i], xs[i]))
  }

  lemma AnswersSnoc(v: View, xs: seq<Exchange>, i: nat)
    requires i < |xs|
    ensures Answers(v, xs[..i + 1]) == Answers(v, xs[..i]) + [Answer(v, xs[..i], xs[i])]
  {
    forall j | 0 <= j < i ensures xs[..i + 1][..j] == xs[..i][..j] {
    }
    assert xs[..i + 1][..i] == xs[..i];
  }

  // -- Whole sessions ---------------------------------------------------------

  /** What every session of one daemon shares and none can change. */
  datatype Ground = Ground(table: Table, ceilingMs: nat, guarded: bool, codec: Codec)

  /** How the opening of a session ends. */
  datatype Opening = Refused(response: Response) | Silent | Opened(configs: Resolved)

  function Open(g: Ground, script: Script): Opening {
    match script.first
    case None => Silent
    case Some(CallFrame(_)) => Refused(ProtocolError("expected Init as the first frame"))
    case Some(DrainFrame) => Refused(ProtocolError("expected Init as the first frame"))
    case Some(InitFrame(init)) =>
      match Authenticate(script.authenticator, init.token, script.verdict)
      case Err(reject) => Refused(InitError(reject.code, reject.message))
      case Ok(_) =>
        match Resolve(g.table, init)
        case Err(error) => Refused(InitError(error.Code(), error.Message()))
        case Ok(resolved) => Opened(Clamp(resolved, g.ceilingMs))
  }

  /** The whole conversation of a session whose writer never breaks. */
  function Trace(g: Ground, script: Script, allow: bool): seq<Response> {
    match Open(g, script)
    case Silent => []
    case Refused(response) => [response]
    case Opened(configs) => [Ack] + Answers(View(configs, g.guarded, allow, g.codec), script.exchanges)
  }

  /** What gets through a writer that may break. */
  function Delivered(trace: seq<Response>, writable: Option<nat>): seq<Response> {
    if writable.Some? && writable.value < |trace| then trace[..writable.value] else trace
  }

  // -- Consequences -----------------------------------------------------------

  /** The first call is fixed by the first prefix that has one. */
  lemma {:induction false} FirstCallSnoc(kind: Kind, xs: seq<Exchange>, x: Exchange)
    ensures FirstCall(kind, xs + [x]) ==
      if FirstCall(kind, xs).Some? then FirstCall(kind, xs)
      else if Calls(x, kind) then Some(x) else None
  {
    if xs == [] {
      assert xs + [x] == [x];
      assert [x][1..] == [];
      assert FirstCall(kind, [x][1..]).None?;
    } else {
      assert (xs + [x])[1..] == xs[1..] + [x];
      FirstCallSnoc(kind, xs[1..], x);
    }
  }

  lemma HistorySnoc(v: View, kind: Kind, xs: seq<Exchange>, x: Exchange)
    ensures History(v, kind, xs + [x]) ==
      History(v, kind, xs) + (if Calls(x, kind) && Reached(v, xs, x) then [MetricOf(x)] else [])
  {
    assert (xs + [x])[..|xs|] == xs;
  }

  /** A kind that was never called has no history. */
  lemma {:induction false} UncalledHasNoHistory(v: View, kind: Kind, xs: seq<Exchange>)
    requires FirstCall(kind, xs).None?
    ensures History(v, kind, xs) == []
    decreases |xs|
  {
    if xs != [] {
      var past, x := xs[..|xs| - 1], xs[|xs| - 1];
      assert xs == past + [x];
      FirstCallSnoc(kind, past, x);
      UncalledHasNoHistory(v, kind, past);
    }
  }

  /** Metrics only grow: what one drain reports is a prefix, kind by kind, of what any later drain
      of the same session reports. */
  lemma {:induction false} LaterDrainsExtendEarlierOnes(v: View, kind: Kind, xs: seq<Exchange>, ys: seq<Exchange>)
    ensures History(v, kind, xs) <= History(v, kind, xs + ys)
    decreases |ys|
  {
    if ys == [] {
      assert xs + ys == xs;
    } else {
      var n := |ys| - 1;
      LaterDrainsExtendEarlierOnes(v, kind, xs, ys[..n]);
      HistorySnoc(v, kind, xs + ys[..n], ys[n]);
      assert xs + ys == xs + ys[..n] + [ys[n]];
    }
  }

  /** Two drains report the same when no call reached a backend in between; in particular repeated
      drains are equal, and so are drains around a refused second `Init`. */
  lemma {:induction false} QuietStretchesDoNotMeter(v: View, kind: Kind, xs: seq<Exchange>, from: nat)
    requires from <= |xs|
    requires forall i :: from <= i < |xs| ==> Calls(xs[i], kind) ==> !Reached(v, xs[..i], xs[i])
    ensures History(v, kind, xs) == History(v, kind, xs[..from])
    decreases |xs|
  {
    if from == |xs| {
      assert xs[..from] == xs;
    } else {
      var past := xs[..|xs| - 1];
      forall i | from <= i < |past| && Calls(past[i], kind) ensures !Reached(v, past[..i], past[i]) {
        assert past[..i] == xs[..i];
      }
      QuietStretchesDoNotMeter(v, kind, past, from);
      assert past[..from] == xs[..from];
    }
  }

  /** Connect-once, seen from outside: after the first call of a kind, every call of that kind for
      the rest of the session finds the same client or is given the same connect error. */
  lemma {:induction false} ConnectionIsDecidedOnce(v: View, kind: Kind, xs: seq<Exchange>, ys: seq<Exchange>)
    requires Connection(v, kind, xs).Some?
    ensures Connection(v, kind, xs + ys) == Connection(v, kind, xs)
    decreases |ys|
  {
    if ys == [] {
      assert xs + ys == xs;
    } else {
      var n := |ys| - 1;
      ConnectionIsDecidedOnce(v, kind, xs, ys[..n]);
      FirstCallSnoc(kind, xs + ys[..n], ys[n]);
      assert xs + ys == xs + ys[..n] + [ys[n]];
    }
  }

  lemma FailedConnectIsReturnedForever(v: View, kind: Kind, xs: seq<Exchange>, ys: seq<Exchange>, x: Exchange)
    requires v.configs.For(kind).Some? && Calls(x, kind)
    requires Connection(v, kind, xs).Some? && Connection(v, kind, xs).value.Err?
    ensures CallResult(v, xs + ys, x) == Err(Connection(v, kind, xs).value.error)
    ensures !Reached(v, xs + ys, x)
  {
    ConnectionIsDecidedOnce(v, kind, xs, ys + [x]);
    assert xs + ys + [x] == xs + (ys + [x]);
  }

  /** No more than `maxSends` mail operations are ever carried out in a session, and once that many
      have been, a further well-formed call is refused without changing anything. */
  lemma {:induction false} MailBudgetHolds(v: View, xs: seq<Exchange>)
    requires v.configs.mail.Some? && v.configs.mail.value.maxSends != 0
    ensures |History(v, Mail, xs)| <= v.configs.mail.value.maxSends
    decreases |xs|
  {
    if xs != [] {
      var past, x := xs[..|xs| - 1], xs[|xs| - 1];
      MailBudgetHolds(v, past);
      assert Calls(x, Mail) && Reached(v, past, x) ==> !OverBudget(v, Mail, past);
    }
  }

  /** The names an accepted `Init` selected are exactly the kinds that are wired: a call is answered
      "not configured" if and only if the `Init` named nothing of its kind. */
  lemma NotConfiguredExactlyWhenUnnamed(g: Ground, script: Script, init: Init, allow: bool, i: nat, kind: Kind)
    requires script.first == Some(InitFrame(init))
    requires Open(g, script).Opened?
    requires i < |script.exchanges| && Calls(script.exchanges[i], kind)
    ensures i + 1 < |Trace(g, script, allow)|
    ensures Trace(g, script, allow)[i + 1] == Reply(Err(NotConfiguredError(kind))) <==> init.Name(kind).None?
  {
    ResolveIsFaithful(g.table, init);
    var resolved := Resolve(g.table, init).value;
    assert Fate(Visible(g.table, init.tenant), init, kind) == Ok(resolved.For(kind));
    assert Clamp(resolved, g.ceilingMs).For(kind).Some? <==> resolved.For(kind).Some? by {
      if kind != Db {
        assert Clamp(resolved, g.ceilingMs).For(kind) == resolved.For(kind);
      }
    }
  }

  /** Tenant non-interference of a whole conversation: it depends on the table only through the
      entries bound to the session's own tenant. */
  lemma TraceSeesOnlyItsTenant(one: Ground, two: Ground, script: Script, init: Init, allow: bool)
    requires script.first == Some(InitFrame(init))
    requires two == one.(table := two.table)
    requires Visible(one.table, init.tenant) == Visible(two.table, init.tenant)
    ensures Trace(one, script, allow) == Trace(two, script, allow)
  {
    ResolveSeesOnlyItsTenant(one.table, two.table, init);
  }
}
