/** The vocabulary shared by every part of the daemon: capability kinds, wire requests and
    responses, and the error that a call carries back to the box. Framing and JSON are abstracted:
    requests and responses are typed values. */
module Wire {

  datatype Option<+T> = None | Some(value: T)

  datatype Result<+T, +E> = Ok(value: T) | Err(error: E)

  /** An empty text counts as absent. */
  function NonEmpty(text: Option<string>): Option<string> {
    if text.Some? && text.value != "" then text else None
  }

  lemma Associative<T>(a: seq<T>, b: seq<T>, c: seq<T>)
    ensures a + b + c == a + (b + c)
  {
  }

  /** The six driver-backed capabilities. */
  datatype Kind = Db | Mongo | Mail | Redis | Amq | Auth

  /** The order in which an `Init` is resolved. */
  const KINDS: seq<Kind> := [Db, Mongo, Mail, Redis, Amq, Auth]

  /** The lowercase tag under which a call names its capability. */
  function Tag(kind: Kind): string {
    match kind
    case Db => "db"
    case Mongo => "mongo"
    case Mail => "mail"
    case Redis => "redis"
    case Amq => "amq"
    case Auth => "auth"
  }

  /** Routing of a call by name, tried in the order of the source's `match`. */
  function KindOf(name: string): Option<Kind> {
    if name == "db" then Some(Db)
    else if name == "mongo" then Some(Mongo)
    else if name == "mail" then Some(Mail)
    else if name == "redis" then Some(Redis)
    else if name == "amq" then Some(Amq)
    else if name == "auth" then Some(Auth)
    else None
  }

  /** Routing is the exact inverse of tagging: every capability is reachable under its own tag and
      under no other name. */
  lemma RoutingInvertsTagging(name: string, kind: Kind)
    ensures KindOf(name) == Some(kind) <==> name == Tag(kind)
  {
    assert "db" != "mongo" && "db" != "mail" && "db" != "redis" && "db" != "amq" && "db" != "auth" by {
      assert |"db"| == 2 && |"amq"| == 3;
    }
    assert "mail"[0] != "auth"[0];
    assert "mongo"[0] != "redis"[0];
  }

  datatype Owner = Caller | Developer | Operator

  /** Error codes. Those that only the broker itself raises are constructors of their own; a code that
      backends and drivers raise is carried as text. */
  datatype Code =
    | NotConfigured(kind: Kind)
    | IoUnknown
    | CircuitOpen
    | MailOpLimit
    | DriverCode(text: string)
  {
    /** The code as it goes over the wire. */
    function Text(): string {
      match this
      case NotConfigured(Db) => "DB_NOT_CONFIGURED"
      case NotConfigured(Mongo) => "MONGO_NOT_CONFIGURED"
      case NotConfigured(Mail) => "MAIL_NOT_CONFIGURED"
      case NotConfigured(Redis) => "REDIS_NOT_CONFIGURED"
      case NotConfigured(Amq) => "AMQ_NOT_CONFIGURED"
      case NotConfigured(Auth) => "AUTH_NOT_CONFIGURED"
      case IoUnknown => "IO_UNKNOWN"
      case CircuitOpen => "DB_CIRCUIT_OPEN"
      case MailOpLimit => "MAIL_OP_LIMIT"
      case DriverCode(text) => text
    }
  }

  datatype EgressError = EgressError(source: string, code: Code, message: string, owner: Owner)

  /** A session's opening request: one optional logical name per kind, the trusted tenant, the
      client-auth token and the execution budget. */
  datatype Init = Init(
    db: Option<string>, mongo: Option<string>, mail: Option<string>,
    redis: Option<string>, amq: Option<string>, auth: Option<string>,
    tenant: Option<string>, token: Option<string>, timeoutMs: nat)
  {
    function Name(kind: Kind): Option<string> {
      match kind
      case Db => db
      case Mongo => mongo
      case Mail => mail
      case Redis => redis
      case Amq => amq
      case Auth => auth
    }
  }

  datatype Call = Call(name: string, action: string, payload: string)

  datatype Request = InitFrame(init: Init) | CallFrame(call: Call) | DrainFrame

  /** Per-operation figures: rows, documents, recipients, bytes or status, as the capability
      reports them, and its truncated / accepted / hit / published flag. */
  datatype Stats = Stats(first: nat, second: nat, flag: bool)

  /** What a failed operation reports. */
  const NO_STATS := Stats(0, 0, false)

  datatype Metric = Metric(action: string, durationUs: nat, stats: Stats)

  datatype BackendMetrics = BackendMetrics(
    db: seq<Metric>, mongo: seq<Metric>, mail: seq<Metric>,
    redis: seq<Metric>, amq: seq<Metric>, auth: seq<Metric>)
  {
    function Of(kind: Kind): seq<Metric> {
      match kind
      case Db => db
      case Mongo => mongo
      case Mail => mail
      case Redis => redis
      case Amq => amq
      case Auth => auth
    }
  }

  datatype Response =
    | Ack
    | InitError(code: string, message: string)
    | Reply(result: Result<string, EgressError>)
    | Metrics(metrics: BackendMetrics)
    | ProtocolError(text: string)
}
