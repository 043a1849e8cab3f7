/** The operator's credential table and the tenant-scoped resolution of a session's logical names
    (crates/fabric-backends/src/resources.rs). */
module Resources {
  import opened Wire

  datatype DbConfig = DbConfig(
    host: string, port: nat, user: string, password: string, database: string,
    ssl: bool, statementTimeoutMs: nat, maxRows: nat)

  datatype MongoConfig = MongoConfig(
    host: string, port: nat, username: Option<string>, password: Option<string>, database: string,
    authSource: string, tls: bool, caCert: Option<string>, opTimeoutMs: nat, maxDocs: nat)

  datatype TlsMode = Starttls | Wrapper | Plaintext

  datatype MailConfig = MailConfig(
    host: string, port: nat, user: string, password: string, tls: TlsMode, from: string,
    maxRecipients: nat, allowedRecipientDomains: seq<string>, maxSends: nat, timeoutMs: nat)

  datatype RedisConfig = RedisConfig(url: string, timeoutMs: nat)

  datatype Broker = Rabbitmq | Nats

  datatype AmqConfig = AmqConfig(
    broker: Broker, host: string, port: Option<nat>, username: Option<string>, password: Option<string>,
    token: Option<string>, vhost: string, exchange: string, maxBatch: nat, requestTimeoutMs: nat,
    tls: bool, caCert: Option<string>)

  datatype AuthConfig = AuthConfig(
    issuer: string, userinfoUrl: Option<string>, introspectUrl: Option<string>,
    clientId: string, clientSecret: string, timeoutMs: nat)

  /** One operator-declared resource: a kind tag and that driver's configuration. */
  datatype Binding =
    | DbBinding(dbConfig: DbConfig)
    | MongoBinding(mongoConfig: MongoConfig)
    | MailBinding(mailConfig: MailConfig)
    | RedisBinding(redisConfig: RedisConfig)
    | AmqBinding(amqConfig: AmqConfig)
    | AuthBinding(authConfig: AuthConfig)
  {
    function Kind(): Kind {
      match this
      case DbBinding(_) => Db
      case MongoBinding(_) => Mongo
      case MailBinding(_) => Mail
      case RedisBinding(_) => Redis
      case AmqBinding(_) => Amq
      case AuthBinding(_) => Auth
    }

    function AsDb(): Option<DbConfig> { if DbBinding? then Some(dbConfig) else None }
    function AsMongo(): Option<MongoConfig> { if MongoBinding? then Some(mongoConfig) else None }
    function AsMail(): Option<MailConfig> { if MailBinding? then Some(mailConfig) else None }
    function AsRedis(): Option<RedisConfig> { if RedisBinding? then Some(redisConfig) else None }
    function AsAmq(): Option<AmqConfig> { if AmqBinding? then Some(amqConfig) else None }
    function AsAuth(): Option<AuthConfig> { if AuthBinding? then Some(authConfig) else None }
  }

  /** A binding and the one tenant that may resolve it (`None` = global, for tenantless sessions). */
  datatype TenantBinding = TenantBinding(tenant: Option<string>, binding: Binding)

  type Table = map<string, TenantBinding>

  datatype Resolved = Resolved(
    db: Option<DbConfig>, mongo: Option<MongoConfig>, mail: Option<MailConfig>,
    redis: Option<RedisConfig>, amq: Option<AmqConfig>, auth: Option<AuthConfig>)
  {
    /** The resolved configuration of one kind, tagged. */
    function For(kind: Kind): Option<Binding> {
      match kind
      case Db => if db.Some? then Some(DbBinding(db.value)) else None
      case Mongo => if mongo.Some? then Some(MongoBinding(mongo.value)) else None
      case Mail => if mail.Some? then Some(MailBinding(mail.value)) else None
      case Redis => if redis.Some? then Some(RedisBinding(redis.value)) else None
      case Amq => if amq.Some? then Some(AmqBinding(amq.value)) else None
      case Auth => if auth.Some? then Some(AuthBinding(auth.value)) else None
    }
  }

  datatype ResolveError = NotFound(name: string) | KindMismatch(name: string, kind: string) {
    function Code(): string {
      if NotFound? then "RESOURCE_NOT_FOUND" else "RESOURCE_KIND_MISMATCH"
    }

    function Message(): string {
      match this
      case NotFound(name) => "no operator resource named `" + name + "`"
      case KindMismatch(name, kind) => "resource `" + name + "` is not a " + kind + " resource"
    }
  }

  // -- The code ---------------------------------------------------------------

  /** Resolves one optional name within the session's tenant. */
  function Pick<T>(table: Table, tenant: Option<string>, name: Option<string>, kind: string,
                   extract: Binding -> Option<T>): Result<Option<T>, ResolveError>
  {
    if name.None? then Ok(None)
    else if name.value !in table then Err(NotFound(name.value))
    else if table[name.value].tenant != tenant then Err(NotFound(name.value))
    else
      match extract(table[name.value].binding)
      case Some(config) => Ok(Some(config))
      case None => Err(KindMismatch(name.value, kind))
  }

  /** Resolves every name an `Init` selects, stopping at the first failure. */
  function Resolve(table: Table, init: Init): Result<Resolved, ResolveError> {
    match Pick(table, init.tenant, init.db, "db", (b: Binding) => b.AsDb())
    case Err(e) => Err(e)
    case Ok(db) =>
      match Pick(table, init.tenant, init.mongo, "mongo", (b: Binding) => b.AsMongo())
      case Err(e) => Err(e)
      case Ok(mongo) =>
        match Pick(table, init.tenant, init.mail, "mail", (b: Binding) => b.AsMail())
        case Err(e) => Err(e)
        case Ok(mail) =>
          match Pick(table, init.tenant, init.redis, "redis", (b: Binding) => b.AsRedis())
          case Err(e) => Err(e)
          case Ok(redis) =>
            match Pick(table, init.tenant, init.amq, "amq", (b: Binding) => b.AsAmq())
            case Err(e) => Err(e)
            case Ok(amq) =>
              match Pick(table, init.tenant, init.auth, "auth", (b: Binding) => b.AsAuth())
              case Err(e) => Err(e)
              case Ok(auth) => Ok(Resolved(db, mongo, mail, redis, amq, auth))
  }

  /** Clamps the db statement timeout to the operator's ceiling (`0` = no ceiling). A timeout already
      in 1..ceiling is kept, any other becomes the ceiling; no other field and no other kind ever
      changes. */
  function Clamp(resolved: Resolved, ceilingMs: nat): (clamped: Resolved)
    ensures forall kind :: kind != Db ==> clamped.For(kind) == resolved.For(kind)
    ensures clamped.db.Some? <==> resolved.db.Some?
    ensures resolved.db.Some? ==>
      var before, after := resolved.db.value, clamped.db.value;
      && after.(statementTimeoutMs := before.statementTimeoutMs) == before
      && (ceilingMs > 0 ==> 1 <= after.statementTimeoutMs <= ceilingMs)
      && (after == before <==> ceilingMs == 0 || 1 <= before.statementTimeoutMs <= ceilingMs)
      && (after != before ==> after.statementTimeoutMs == ceilingMs)
  {
    if ceilingMs == 0 || resolved.db.None? then resolved
    else
      var asked := resolved.db.value.statementTimeoutMs;
      var granted := if asked == 0 then ceilingMs else if asked < ceilingMs then asked else ceilingMs;
      resolved.(db := Some(resolved.db.value.(statementTimeoutMs := granted)))
  }

  // -- What it means ----------------------------------------------------------

  /** All that a tenant may know of the table: the entries bound to exactly that tenant. */
  function Visible(table: Table, tenant: Option<string>): map<string, Binding> {
    map name | name in table && table[name].tenant == tenant :: table[name].binding
  }

  /** What becomes of the name selected for one kind, judged on the visible entries alone. */
  function Fate(visible: map<string, Binding>, init: Init, kind: Kind): Result<Option<Binding>, ResolveError> {
    match init.Name(kind)
    case None => Ok(None)
    case Some(name) =>
      if name !in visible then Err(NotFound(name))
      else if visible[name].Kind() == kind then Ok(Some(visible[name]))
      else Err(KindMismatch(name, Tag(kind)))
  }

  /** Resolution, judged kind by kind on the visible entries: it succeeds with every kind's own
      fate, or it reports the fate of the first kind, in the fixed order, that fails. */
  ghost predicate Faithful(visible: map<string, Binding>, init: Init, outcome: Result<Resolved, ResolveError>) {
    match outcome
    case Ok(resolved) => forall kind :: Fate(visible, init, kind) == Ok(resolved.For(kind))
    case Err(error) =>
      exists i :: 0 <= i < |KINDS|
        && Fate(visible, init, KINDS[i]) == Err(error)
        && forall j :: 0 <= j < i ==> Fate(visible, init, KINDS[j]).Ok?
  }

  lemma ResolveIsFaithful(table: Table, init: Init)
    ensures Faithful(Visible(table, init.tenant), init, Resolve(table, init))
  {
    var visible := Visible(table, init.tenant);
    match Resolve(table, init)
    case Ok(resolved) =>
      forall kind
        ensures Fate(visible, init, kind) == Ok(resolved.For(kind))
      {
      }
    case Err(error) =>
      var i := if Fate(visible, init, Db).Err? then 0
               else if Fate(visible, init, Mongo).Err? then 1
               else if Fate(visible, init, Mail).Err? then 2
               else if Fate(visible, init, Redis).Err? then 3
               else if Fate(visible, init, Amq).Err? then 4 else 5;
      assert Fate(visible, init, KINDS[i]) == Err(error);
      assert forall j :: 0 <= j < i ==> Fate(visible, init, KINDS[j]).Ok?;
  }

  /** There is only one faithful outcome, so the judgement determines resolution completely. */
  lemma FaithfulIsUnique(visible: map<string, Binding>, init: Init,
                         one: Result<Resolved, ResolveError>, two: Result<Resolved, ResolveError>)
    requires Faithful(visible, init, one) && Faithful(visible, init, two)
    ensures one == two
  {
    if one.Ok? && two.Ok? {
      forall kind ensures one.value.For(kind) == two.value.For(kind) {
        assert Fate(visible, init, kind) == Ok(one.value.For(kind));
      }
      SameFields(one.value, two.value);
    } else if one.Err? && two.Err? {
      var i :| 0 <= i < |KINDS| && Fate(visible, init, KINDS[i]) == Err(one.error)
        && forall j :: 0 <= j < i ==> Fate(visible, init, KINDS[j]).Ok?;
      var k :| 0 <= k < |KINDS| && Fate(visible, init, KINDS[k]) == Err(two.error)
        && forall j :: 0 <= j < k ==> Fate(visible, init, KINDS[j]).Ok?;
      assert i == k;
    }
  }

  lemma SameFields(one: Resolved, two: Resolved)
    requires forall kind :: one.For(kind) == two.For(kind)
    ensures one == two
  {
    assert one.For(Db) == two.For(Db) && one.For(Mongo) == two.For(Mongo) && one.For(Mail) == two.For(Mail);
    assert one.For(Redis) == two.For(Redis) && one.For(Amq) == two.For(Amq) && one.For(Auth) == two.For(Auth);
  }

  /** Tenant non-interference: two tables that agree on the entries bound to the session's tenant
      resolve alike - the same configurations or the same error, code and message included. */
  lemma ResolveSeesOnlyItsTenant(one: Table, two: Table, init: Init)
    requires Visible(one, init.tenant) == Visible(two, init.tenant)
    ensures Resolve(one, init) == Resolve(two, init)
  {
    ResolveIsFaithful(one, init);
    ResolveIsFaithful(two, init);
    FaithfulIsUnique(Visible(one, init.tenant), init, Resolve(one, init), Resolve(two, init));
  }

  /** A name bound to another tenant behaves exactly like a name that is not in the table: deleting
      any set of foreign entries, or adding any, changes nothing. */
  lemma ForeignNamesAreAbsent(table: Table, foreign: Table, init: Init)
    requires forall name :: name in foreign ==> foreign[name].tenant != init.tenant
    requires forall name :: name in foreign && name in table ==> table[name].tenant != init.tenant
    ensures Resolve(table + foreign, init) == Resolve(table - foreign.Keys, init) == Resolve(table, init)
  {
    assert Visible(table + foreign, init.tenant) == Visible(table, init.tenant);
    assert Visible(table - foreign.Keys, init.tenant) == Visible(table, init.tenant);
    ResolveSeesOnlyItsTenant(table + foreign, table, init);
    ResolveSeesOnlyItsTenant(table - foreign.Keys, table, init);
  }
}
