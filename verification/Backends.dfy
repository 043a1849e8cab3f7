/** The per-session backend set: connect-once slots, the breaker guard around the db connect, and one
    metrics collector per capability (crates/fabric-backends/src/backendset.rs, db.rs, mail.rs),
    proved to agree with the history-based reading of a session. */
module Backends {
  import opened Wire
  import opened Resources
  import opened SessionSpec
  import opened Ledger
  import opened DeedSpec
  import MailPolicy

  /** A connect-once cell: not tried yet, failed for good, or live with its client and the metrics
      collected so far. */
  datatype Cell =
    | Vacant
    | Failed(error: EgressError)
    | Live(client: nat, metrics: seq<Metric>)

  datatype Slot = Slot(binding: Binding, cell: Cell)

  type Slots = map<Kind, Slot>

  // -- Pieces of the code that several callers share ----------------------------

  /** A freshly wired slot; amq needs no connection. */
  function NewSlot(binding: Binding): Slot {
    Slot(binding, if binding.AmqBinding? then Live(0, []) else Vacant)
  }

  function Fresh(configs: Resolved): Slots {
    map kind: Kind | configs.For(kind).Some? :: NewSlot(configs.For(kind).value)
  }

  /** What connecting leaves in the cell. */
  function CellOf(outcome: Result<nat, EgressError>): Cell {
    match outcome
    case Ok(client) => Live(client, [])
    case Err(error) => Failed(error)
  }

  function Collected(slots: Slots, kind: Kind): seq<Metric> {
    if kind in slots && slots[kind].cell.Live? then slots[kind].cell.metrics else []
  }

  function Drained(slots: Slots): BackendMetrics {
    BackendMetrics(Collected(slots, Db), Collected(slots, Mongo), Collected(slots, Mail),
                   Collected(slots, Redis), Collected(slots, Amq), Collected(slots, Auth))
  }

  /** The mail sub-cap, read off the collector. */
  predicate Exhausted(binding: Binding, metrics: seq<Metric>) {
    binding.MailBinding? && binding.mailConfig.maxSends != 0 && |metrics| >= binding.mailConfig.maxSends
  }

  /** What an operation on a tried slot yields: the slot afterwards, the call's result, and whether
      the driver was reached. */
  datatype Operated = Operated(slot: Slot, result: Result<string, EgressError>, reached: bool)

  function Operate(slot: Slot, codec: Codec, kind: Kind, x: Exchange): Operated
    requires x.request.CallFrame?
  {
    match slot.cell
    case Vacant => Operated(slot, Err(NotConfiguredError(kind)), false)
    case Failed(error) => Operated(slot, Err(error), false)
    case Live(client, metrics) =>
      match Unpack(codec, kind, x.request.call.payload)
      case Err(error) => Operated(slot, Err(error), false)
      case Ok(_) =>
        if Exhausted(slot.binding, metrics) then
          Operated(slot, Err(OpLimitError(slot.binding.mailConfig.maxSends)), false)
        else
          Operated(slot.(cell := Live(client, metrics + [MetricOf(x)])),
                   match x.outcome
                   case Ok(outcome) => Ok(outcome.json)
                   case Err(fault) => Err(OperationError(kind, fault)),
                   true)
  }

  // -- Agreement with history ---------------------------------------------------

  function CellFor(v: View, kind: Kind, xs: seq<Exchange>, metrics: seq<Metric>): Cell {
    match Connection(v, kind, xs)
    case None => Vacant
    case Some(Err(error)) => Failed(error)
    case Some(Ok(client)) => Live(client, metrics)
  }

  ghost predicate Wired(configs: Resolved, slots: Slots) {
    && (forall kind :: kind in slots <==> configs.For(kind).Some?)
    && (forall kind :: kind in slots ==> slots[kind].binding == configs.For(kind).value)
  }

  /** The cached state is what the history prescribes. */
  ghost predicate Agree(v: View, slots: Slots, xs: seq<Exchange>) {
    && Wired(v.configs, slots)
    && (forall kind :: kind in slots ==> slots[kind].cell == CellFor(v, kind, xs, History(v, kind, xs)))
  }

  /** In the middle of a call of `kind`: its connection has been settled, its metric not recorded. */
  ghost predicate Half(v: View, slots: Slots, past: seq<Exchange>, x: Exchange, kind: Kind) {
    && Wired(v.configs, slots)
    && kind in slots
    && slots[kind].cell == CellFor(v, kind, past + [x], History(v, kind, past))
    && (forall other :: other in slots && other != kind ==>
          slots[other].cell == CellFor(v, other, past, History(v, other, past)))
  }

  lemma FreshAgrees(v: View)
    ensures Agree(v, Fresh(v.configs), [])
  {
  }

  /** An exchange that calls nothing that is wired changes nothing. */
  lemma QuietAgrees(v: View, slots: Slots, past: seq<Exchange>, x: Exchange)
    requires Agree(v, slots, past)
    requires forall kind :: kind in slots ==> !Calls(x, kind)
    ensures Agree(v, slots, past + [x])
  {
    forall kind | kind in slots
      ensures slots[kind].cell == CellFor(v, kind, past + [x], History(v, kind, past + [x]))
    {
      FirstCallSnoc(kind, past, x);
      HistorySnoc(v, kind, past, x);
    }
  }

  /** The error of a call that reaches no slot. */
  function NotServed(route: Option<Kind>, name: string): EgressError {
    if route.None? then UnknownName(name) else NotConfiguredError(route.value)
  }

  /** A call of an unknown or unwired kind is answered with an error and has no effect. */
  lemma Unserved(v: View, slots: Slots, past: seq<Exchange>, x: Exchange)
    requires Agree(v, slots, past) && x.request.CallFrame?
    requires var route := KindOf(x.request.call.name); route.None? || route.value !in slots
    ensures Agree(v, slots, past + [x])
    ensures CallResult(v, past, x) == Err(NotServed(KindOf(x.request.call.name), x.request.call.name))
    ensures DeedsOf(v, past, x) == []
  {
    QuietAgrees(v, slots, past, x);
  }

  lemma WiredKinds(configs: Resolved, slots: Slots)
    requires Wired(configs, slots)
    ensures forall kind :: kind in slots ==> slots[kind].binding.Kind() == kind
  {
  }

  /** A cell that was tried before is left as it is. */
  lemma TriedIsHalf(v: View, slots: Slots, past: seq<Exchange>, x: Exchange, kind: Kind)
    requires Agree(v, slots, past)
    requires kind in slots && !slots[kind].cell.Vacant?
    ensures Half(v, slots, past, x, kind)
  {
    FirstCallSnoc(kind, past, x);
  }

  /** Filling a vacant cell with the outcome of this very call's connect. */
  lemma FilledIsHalf(v: View, slots: Slots, past: seq<Exchange>, x: Exchange, kind: Kind)
    requires Agree(v, slots, past)
    requires kind in slots && slots[kind].cell.Vacant? && Calls(x, kind)
    ensures Half(v, slots[kind := slots[kind].(cell := CellOf(ConnectOutcome(v, kind, x)))], past, x, kind)
  {
    FirstCallSnoc(kind, past, x);
    UncalledHasNoHistory(v, kind, past);
  }

  lemma OperateReaches(v: View, slots: Slots, past: seq<Exchange>, x: Exchange, kind: Kind)
    requires Half(v, slots, past, x, kind) && Calls(x, kind)
    ensures var done := Operate(slots[kind], v.codec, kind, x);
      && done.reached == Reached(v, past, x)
      && done.result == CallResult(v, past, x)
  {
    FirstCallSnoc(kind, past, x);
    assert Connection(v, kind, past + [x]).Some?;
    if slots[kind].cell.Live? {
      assert slots[kind].binding.MailBinding? <==> kind == Mail;
      assert Exhausted(slots[kind].binding, slots[kind].cell.metrics) <==> OverBudget(v, kind, past);
    }
  }

  lemma OperateMeters(v: View, slots: Slots, past: seq<Exchange>, x: Exchange, kind: Kind)
    requires Half(v, slots, past, x, kind) && Calls(x, kind)
    ensures Operate(slots[kind], v.codec, kind, x).slot
         == Slot(slots[kind].binding, CellFor(v, kind, past + [x], History(v, kind, past + [x])))
  {
    OperateReaches(v, slots, past, x, kind);
    HistorySnoc(v, kind, past, x);
  }

  /** Carrying out the operation restores agreement, with the exchange now part of the history, and
      answers what the history prescribes. */
  lemma OperateAgrees(v: View, slots: Slots, past: seq<Exchange>, x: Exchange, kind: Kind)
    requires Half(v, slots, past, x, kind) && Calls(x, kind)
    ensures var done := Operate(slots[kind], v.codec, kind, x);
      && done.reached == Reached(v, past, x)
      && done.result == CallResult(v, past, x)
      && Agree(v, slots[kind := done.slot], past + [x])
  {
    OperateReaches(v, slots, past, x, kind);
    OperateMeters(v, slots, past, x, kind);
    AgreeAgain(v, slots, past, x, kind, Operate(slots[kind], v.codec, kind, x).slot);
  }

  /** A call of one kind leaves what is prescribed for the others as it was. */
  lemma OthersStay(v: View, past: seq<Exchange>, x: Exchange, kind: Kind, other: Kind)
    requires Calls(x, kind) && other != kind
    ensures CellFor(v, other, past + [x], History(v, other, past + [x])) == CellFor(v, other, past, History(v, other, past))
  {
    HistorySnoc(v, other, past, x);
    FirstCallSnoc(other, past, x);
  }

  /** Putting back the slot that is prescribed after the call restores agreement. */
  lemma AgreeAgain(v: View, slots: Slots, past: seq<Exchange>, x: Exchange, kind: Kind, slot: Slot)
    requires Half(v, slots, past, x, kind) && Calls(x, kind)
    requires slot == Slot(slots[kind].binding, CellFor(v, kind, past + [x], History(v, kind, past + [x])))
    ensures Agree(v, slots[kind := slot], past + [x])
  {
    forall other | other in slots && other != kind
      ensures slots[other].cell == CellFor(v, other, past + [x], History(v, other, past + [x]))
    {
      OthersStay(v, past, x, kind, other);
    }
  }

  /** A vacant cell means the connect is due, a tried one that it is not. */
  lemma VacantSettles(v: View, slots: Slots, past: seq<Exchange>, x: Exchange, kind: Kind, allowed: bool)
    requires Agree(v, slots, past)
    requires kind in slots && slots[kind].cell.Vacant?
    requires kind == Db && v.guarded ==> allowed == v.allow
    ensures Settling(v, kind, past, x) == ConnectDeeds(slots[kind].binding, x.connect, v.guarded, allowed)
  {
    assert Connection(v, kind, past).None?;
    assert slots[kind].binding.Kind() == kind;
  }

  lemma TriedSettles(v: View, slots: Slots, past: seq<Exchange>, x: Exchange, kind: Kind)
    requires Agree(v, slots, past)
    requires kind in slots && !slots[kind].cell.Vacant?
    ensures Settling(v, kind, past, x) == []
  {
    assert Connection(v, kind, past).Some?;
  }

  /** The client in the cell is the one the operation is prescribed to go to. */
  lemma OperateDrives(v: View, slots: Slots, past: seq<Exchange>, x: Exchange, kind: Kind)
    requires Half(v, slots, past, x, kind) && Calls(x, kind)
    ensures var done := Operate(slots[kind], v.codec, kind, x);
      Driving(v, past, x) ==
        if done.reached then [Dispatching(v.codec, kind, slots[kind].binding, slots[kind].cell.client, x.request.call)] else []
  {
    OperateReaches(v, slots, past, x, kind);
  }

  /** Filling a vacant cell, with the connect's effects. */
  lemma Initialised(v: View, slots: Slots, past: seq<Exchange>, x: Exchange, kind: Kind,
                    outcome: Result<nat, EgressError>, allowed: bool)
    requires Agree(v, slots, past)
    requires kind in slots && slots[kind].cell.Vacant? && Calls(x, kind)
    requires outcome == ConnectOutcome(v, kind, x)
    requires kind == Db && v.guarded ==> allowed == v.allow
    ensures Half(v, slots[kind := slots[kind].(cell := CellOf(outcome))], past, x, kind)
    ensures Settling(v, kind, past, x) == ConnectDeeds(slots[kind].binding, x.connect, v.guarded, allowed)
  {
    FilledIsHalf(v, slots, past, x, kind);
    VacantSettles(v, slots, past, x, kind, allowed);
  }

  /** Carrying out the operation, with its effects. */
  lemma Completed(v: View, slots: Slots, past: seq<Exchange>, x: Exchange, kind: Kind)
    requires Half(v, slots, past, x, kind) && Calls(x, kind)
    ensures var done := Operate(slots[kind], v.codec, kind, x);
      && done.result == CallResult(v, past, x)
      && Agree(v, slots[kind := done.slot], past + [x])
      && Driving(v, past, x) ==
           if done.reached then [Dispatching(v.codec, kind, slots[kind].binding, slots[kind].cell.client, x.request.call)] else []
    ensures DeedsOf(v, past, x) == Settling(v, kind, past, x) + Driving(v, past, x)
  {
    OperateAgrees(v, slots, past, x, kind);
    OperateDrives(v, slots, past, x, kind);
  }

  /** The drain reply is the history of operations carried out, kind by kind and in order. */
  lemma DrainIsHistory(v: View, slots: Slots, xs: seq<Exchange>)
    requires Agree(v, slots, xs)
    ensures Drained(slots) == AllMetrics(v, xs)
  {
    forall kind ensures Collected(slots, kind) == History(v, kind, xs) {
      if kind !in slots {
        UnwiredHasNoHistory(v, kind, xs);
      } else if !slots[kind].cell.Live? {
        UnconnectedHasNoHistory(v, kind, xs);
      }
    }
  }

  lemma {:induction false} UnwiredHasNoHistory(v: View, kind: Kind, xs: seq<Exchange>)
    requires v.configs.For(kind).None?
    ensures History(v, kind, xs) == []
    decreases |xs|
  {
    if xs != [] {
      UnwiredHasNoHistory(v, kind, xs[..|xs| - 1]);
    }
  }

  lemma {:induction false} UnconnectedHasNoHistory(v: View, kind: Kind, xs: seq<Exchange>)
    requires Connection(v, kind, xs).None? || Connection(v, kind, xs).value.Err?
    ensures History(v, kind, xs) == []
    decreases |xs|
  {
    if xs != [] {
      var past, x := xs[..|xs| - 1], xs[|xs| - 1];
      assert xs == past + [x];
      FirstCallSnoc(kind, past, x);
      UnconnectedHasNoHistory(v, kind, past);
    }
  }

  /** Wires each resolved configuration in turn. */
  method WireAll(configs: Resolved) returns (slots: Slots)
    ensures slots == Fresh(configs)
  {
    slots := map[];
    if configs.db.Some? { slots := slots[Db := NewSlot(DbBinding(configs.db.value))]; }
    if configs.mongo.Some? { slots := slots[Mongo := NewSlot(MongoBinding(configs.mongo.value))]; }
    if configs.mail.Some? { slots := slots[Mail := NewSlot(MailBinding(configs.mail.value))]; }
    slots := WireRest(slots, configs);
    forall kind
      ensures kind in slots <==> configs.For(kind).Some?
      ensures kind in slots ==> slots[kind] == NewSlot(configs.For(kind).value)
    {
    }
  }

  method WireRest(before: Slots, configs: Resolved) returns (slots: Slots)
    requires Redis !in before && Amq !in before && Auth !in before
    ensures forall kind :: kind != Redis && kind != Amq && kind != Auth ==>
      (kind in slots <==> kind in before) && (kind in before ==> slots[kind] == before[kind])
    ensures forall kind :: kind == Redis || kind == Amq || kind == Auth ==>
      (kind in slots <==> configs.For(kind).Some?) && (kind in slots ==> slots[kind] == NewSlot(configs.For(kind).value))
  {
    slots := before;
    if configs.redis.Some? { slots := slots[Redis := NewSlot(RedisBinding(configs.redis.value))]; }
    if configs.amq.Some? { slots := slots[Amq := NewSlot(AmqBinding(configs.amq.value))]; }
    if configs.auth.Some? { slots := slots[Auth := NewSlot(AuthBinding(configs.auth.value))]; }
  }

  // -- The object ---------------------------------------------------------------

  /** The backend set of one session. `past` is the list of exchanges it has served and `asked` what
      the breaker answered; every method keeps the real fields in agreement with them. */
  class BackendSet {
    const sid: nat
    const configs: Resolved
    const codec: Codec
    ghost const since: nat
    var slots: Slots
    ghost var past: seq<Exchange>
    ghost var asked: Option<bool>

    ghost function ViewFor(guarded: bool, allow: bool): View {
      View(configs, guarded, allow, codec)
    }

    /** Agreement under every breaker answer that is still possible. */
    ghost predicate Valid(guarded: bool)
      reads this
    {
      && (asked.Some? ==> Db in slots && !slots[Db].cell.Vacant?)
      && (forall allow :: Possible(allow) ==> Agree(ViewFor(guarded, allow), slots, past))
    }

    ghost predicate Possible(allow: bool)
      reads `asked
    {
      asked.Some? ==> asked.value == allow
    }

    /** Since this session began, the log holds only true answers of the breaker. */
    ghost predicate Heeds(shared: Shared, now: nat)
      reads shared`log
    {
      Honest(shared.config.policy, shared.log, since, now)
    }

    /** Appends an effect that is no answer of the breaker. */
    method Note(effect: Effect, shared: Shared, ghost now: nat)
      requires Heeds(shared, now) && !effect.Asked?
      modifies shared`log
      ensures Heeds(shared, now) && shared.log == old(shared.log) + [Entry(sid, effect)]
    {
      HonestSnoc(shared.config.policy, shared.log, Entry(sid, effect), since, now);
      shared.Note(sid, effect);
    }

    /** Wires each resolved configuration as an untried slot. */
    constructor (sid: nat, configs: Resolved, codec: Codec, ghost since: nat)
      ensures this.sid == sid && this.configs == configs && this.codec == codec && this.since == since
      ensures past == [] && asked.None?
      ensures forall guarded :: Valid(guarded)
    {
      this.sid := sid;
      this.configs := configs;
      this.codec := codec;
      this.since := since;
      var wired := WireAll(configs);
      slots := wired;
      past := [];
      asked := None;
      new;
      forall guarded, allow ensures Agree(ViewFor(guarded, allow), slots, past) {
        FreshAgrees(ViewFor(guarded, allow));
      }
    }

    /** Connects through the breaker: ask, attempt, record. */
    method ConnectThroughBreaker(config: DbConfig, connect: Result<nat, Fault>, shared: Shared, now: nat)
      returns (r: Result<nat, EgressError>)
      requires Heeds(shared, now)
      modifies `asked, shared`log
      ensures Heeds(shared, now)
      ensures shared.config.policy.None? ==> asked == old(asked) && r == Attempt(Db, connect)
      ensures shared.config.policy.Some? ==>
        && asked == Some(shared.config.policy.value(old(shared.log), Target(config), now))
        && r == if asked.value then Attempt(Db, connect) else Err(CircuitOpenError())
      ensures shared.log == old(shared.log)
        + Stamp(sid, ConnectDeeds(DbBinding(config), connect, shared.config.policy.Some?, asked == Some(true)))
    {
      if shared.config.policy.None? {
        Note(Attempted(DbBinding(config), connect), shared, now);
        return Attempt(Db, connect);
      }
      ghost var heard := shared.log;
      var allowed := shared.Allow(sid, Target(config), now);
      HonestSnoc(shared.config.policy, heard, Entry(sid, Asked(Target(config), allowed)), since, now);
      asked := Some(allowed);
      if !allowed {
        return Err(CircuitOpenError());
      }
      Note(Attempted(DbBinding(config), connect), shared, now);
      HonestSnoc(shared.config.policy, shared.log, Entry(sid, Recorded(Target(config), connect.Ok?)), since, now);
      shared.Record(sid, Target(config), connect.Ok?);
      return Attempt(Db, connect);
    }

    /** Connects one kind, the db through its breaker. */
    method Connect(kind: Kind, binding: Binding, x: Exchange, shared: Shared, now: nat)
      returns (outcome: Result<nat, EgressError>)
      requires binding.Kind() == kind
      requires Heeds(shared, now)
      modifies `asked, shared`log
      ensures Heeds(shared, now)
      ensures kind != Db || shared.config.policy.None? ==> asked == old(asked)
      ensures kind == Db && shared.config.policy.Some? ==> asked.Some?
      ensures forall allow :: (kind == Db && shared.config.policy.Some? ==> asked == Some(allow)) ==>
        outcome == ConnectOutcome(ViewFor(shared.config.policy.Some?, allow), kind, x)
      ensures shared.log == old(shared.log)
        + Stamp(sid, ConnectDeeds(binding, x.connect, shared.config.policy.Some?, asked == Some(true)))
    {
      if kind == Db {
        outcome := ConnectThroughBreaker(binding.dbConfig, x.connect, shared, now);
      } else {
        Note(Attempted(binding, x.connect), shared, now);
        outcome := Attempt(kind, x.connect);
      }
    }

    /** Fills the vacant cell of one wired kind with the outcome of a connect. */
    method Initialise(kind: Kind, x: Exchange, shared: Shared, now: nat)
      requires Valid(shared.config.policy.Some?)
      requires kind in slots && slots[kind].cell.Vacant? && Calls(x, kind) && slots[kind].binding.Kind() == kind
      requires Heeds(shared, now)
      modifies `slots, `asked, shared`log
      ensures Heeds(shared, now)
      ensures kind in slots && (asked.Some? ==> Db in slots && !slots[Db].cell.Vacant?)
      ensures old(asked).Some? ==> asked == old(asked)
      ensures forall allow :: Possible(allow) ==>
        Half(ViewFor(shared.config.policy.Some?, allow), slots, past, x, kind)
      ensures forall allow :: Possible(allow) ==>
        shared.log == old(shared.log) + Stamp(sid, Settling(ViewFor(shared.config.policy.Some?, allow), kind, past, x))
    {
      ghost var guarded := shared.config.policy.Some?;
      ghost var before := slots;
      var outcome := Connect(kind, slots[kind].binding, x, shared, now);
      slots := slots[kind := slots[kind].(cell := CellOf(outcome))];
      forall allow | Possible(allow)
        ensures Half(ViewFor(guarded, allow), slots, past, x, kind)
        ensures Settling(ViewFor(guarded, allow), kind, past, x)
             == ConnectDeeds(before[kind].binding, x.connect, guarded, asked == Some(true))
      {
        Initialised(ViewFor(guarded, allow), before, past, x, kind, outcome, asked == Some(true));
      }
    }

    /** Settles the connection of one wired kind, connecting on first use only. */
    method Backend(kind: Kind, x: Exchange, shared: Shared, now: nat)
      requires Valid(shared.config.policy.Some?)
      requires kind in slots && Calls(x, kind) && slots[kind].binding.Kind() == kind
      requires Heeds(shared, now)
      modifies `slots, `asked, shared`log
      ensures Heeds(shared, now)
      ensures kind in slots && (asked.Some? ==> Db in slots && !slots[Db].cell.Vacant?)
      ensures old(asked).Some? ==> asked == old(asked)
      ensures forall allow :: Possible(allow) ==>
        Half(ViewFor(shared.config.policy.Some?, allow), slots, past, x, kind)
      ensures !old(slots)[kind].cell.Vacant? ==> slots == old(slots) && asked == old(asked)
      ensures forall allow :: Possible(allow) ==>
        shared.log == old(shared.log) + Stamp(sid, Settling(ViewFor(shared.config.policy.Some?, allow), kind, past, x))
    {
      ghost var guarded := shared.config.policy.Some?;
      if slots[kind].cell.Vacant? {
        Initialise(kind, x, shared, now);
      } else {
        forall allow | Possible(allow)
          ensures Half(ViewFor(guarded, allow), slots, past, x, kind)
          ensures Settling(ViewFor(guarded, allow), kind, past, x) == []
        {
          TriedIsHalf(ViewFor(guarded, allow), slots, past, x, kind);
          TriedSettles(ViewFor(guarded, allow), slots, past, x, kind);
        }
      }
    }

    /** Serves one call. Whatever the cells hold, the result and the effects are those the history
        prescribes. */
    method Call(x: Exchange, shared: Shared, now: nat) returns (r: Result<string, EgressError>)
      requires Valid(shared.config.policy.Some?)
      requires x.request.CallFrame?
      requires Heeds(shared, now)
      modifies `slots, `asked, `past, shared`log
      ensures Heeds(shared, now)
      ensures Valid(shared.config.policy.Some?)
      ensures past == old(past) + [x]
      ensures old(asked).Some? ==> asked == old(asked)
      ensures forall allow :: Possible(allow) ==>
        r == CallResult(ViewFor(shared.config.policy.Some?, allow), old(past), x)
      ensures forall allow :: Possible(allow) ==>
        shared.log == old(shared.log) + Stamp(sid, DeedsOf(ViewFor(shared.config.policy.Some?, allow), old(past), x))
    {
      ghost var guarded := shared.config.policy.Some?;
      ghost var before := past;
      assert Wired(configs, slots) by {
        assert Possible(true) || Possible(false);
        assert Agree(ViewFor(guarded, true), slots, past) || Agree(ViewFor(guarded, false), slots, past);
      }
      var route := KindOf(x.request.call.name);
      if route.None? || route.value !in slots {
        r := Err(NotServed(route, x.request.call.name));
        past := past + [x];
        forall allow | Possible(allow)
          ensures Agree(ViewFor(guarded, allow), slots, past)
          ensures r == CallResult(ViewFor(guarded, allow), before, x)
          ensures DeedsOf(ViewFor(guarded, allow), before, x) == []
        {
          Unserved(ViewFor(guarded, allow), slots, before, x);
        }
        return;
      }
      WiredKinds(configs, slots);
      r := CallWired(route.value, x, shared, now);
    }

    /** Serves one call of a wired kind: settle the connection, then carry out the operation. */
    method CallWired(kind: Kind, x: Exchange, shared: Shared, now: nat) returns (r: Result<string, EgressError>)
      requires Valid(shared.config.policy.Some?)
      requires kind in slots && Calls(x, kind) && slots[kind].binding.Kind() == kind
      requires Heeds(shared, now)
      modifies `slots, `asked, `past, shared`log
      ensures Heeds(shared, now)
      ensures Valid(shared.config.policy.Some?)
      ensures past == old(past) + [x]
      ensures old(asked).Some? ==> asked == old(asked)
      ensures forall allow :: Possible(allow) ==>
        r == CallResult(ViewFor(shared.config.policy.Some?, allow), old(past), x)
      ensures forall allow :: Possible(allow) ==>
        shared.log == old(shared.log) + Stamp(sid, DeedsOf(ViewFor(shared.config.policy.Some?, allow), old(past), x))
    {
      ghost var guarded, before, heard := shared.config.policy.Some?, past, shared.log;
      Backend(kind, x, shared, now);
      ghost var settled := slots;
      r := Dispatch(kind, x, shared, now);
      past := past + [x];
      forall allow | Possible(allow)
        ensures Agree(ViewFor(guarded, allow), slots, past)
        ensures r == CallResult(ViewFor(guarded, allow), before, x)
        ensures shared.log == heard + Stamp(sid, DeedsOf(ViewFor(guarded, allow), before, x))
      {
        var v := ViewFor(guarded, allow);
        Completed(v, settled, before, x, kind);
        StampTwice(sid, heard, Settling(v, kind, before, x), Driving(v, before, x));
      }
    }

    /** Unpacks the payload, checks the mail budget, runs the operation and records its metric. */
    method Dispatch(kind: Kind, x: Exchange, shared: Shared, ghost now: nat) returns (r: Result<string, EgressError>)
      requires kind in slots && Calls(x, kind)
      requires Heeds(shared, now)
      modifies `slots, shared`log
      ensures Heeds(shared, now)
      ensures var done := Operate(old(slots)[kind], codec, kind, x);
        r == done.result && slots == old(slots)[kind := done.slot]
      ensures var done := Operate(old(slots)[kind], codec, kind, x);
        shared.log == old(shared.log) + Stamp(sid,
          if done.reached then [Dispatching(codec, kind, old(slots)[kind].binding, old(slots)[kind].cell.client, x.request.call)] else [])
    {
      assert slots[kind := slots[kind]] == slots;
      match slots[kind].cell {
        case Vacant => r := Err(NotConfiguredError(kind));
        case Failed(error) => r := Err(error);
        case Live(client, metrics) =>
          var args := Unpack(codec, kind, x.request.call.payload);
          if args.Err? {
            return Err(args.error);
          }
          if Exhausted(slots[kind].binding, metrics) {
            return Err(OpLimitError(slots[kind].binding.mailConfig.maxSends));
          }
          var handed: Option<MailPolicy.Message> := None;
          if slots[kind].binding.MailBinding? {
            handed := Compose(slots[kind].binding.mailConfig, x.request.call);
          }
          Note(Dispatched(slots[kind].binding, client, x.request.call.action, Some(args.value), handed), shared, now);
          slots := slots[kind := slots[kind].(cell := Live(client, metrics + [MetricOf(x)]))];
          r := match x.outcome
            case Ok(outcome) => Ok(outcome.json)
            case Err(fault) => Err(OperationError(kind, fault));
      }
    }

    /** What a mail operation hands to its transport. */
    method Compose(config: MailConfig, call: Call) returns (handed: Option<MailPolicy.Message>)
      ensures handed == MailPolicy.Handed(codec.mail, config, call.action, call.payload)
    {
      var prepared := MailPolicy.Prepare(codec.mail, config, call.action, call.payload);
      handed := if prepared.Ok? then Some(prepared.value.message) else None;
    }

    /** Drains every collector: the reply is the history of operations, in order, per capability. */
    method DrainMetrics(ghost guarded: bool) returns (m: BackendMetrics)
      requires Valid(guarded)
      ensures forall allow :: Possible(allow) ==> m == AllMetrics(ViewFor(guarded, allow), past)
    {
      m := Drained(slots);
      forall allow | Possible(allow) ensures m == AllMetrics(ViewFor(guarded, allow), past) {
        DrainIsHistory(ViewFor(guarded, allow), slots, past);
      }
    }

    /** A frame that reaches no backend - a drain or a second `Init` - only lengthens the history. */
    ghost method Pass(x: Exchange, guarded: bool)
      requires Valid(guarded)
      requires !x.request.CallFrame?
      modifies `past
      ensures Valid(guarded) && past == old(past) + [x]
    {
      forall allow | Possible(allow) ensures Agree(ViewFor(guarded, allow), slots, past + [x]) {
        QuietAgrees(ViewFor(guarded, allow), slots, past, x);
      }
      past := past + [x];
    }
  }
}
