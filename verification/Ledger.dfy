/** The state all sessions of a daemon share (crates/fabricd/src/main.rs, `Shared`): the immutable
    configuration, the count of rejected clients, and the breaker, which is any function of what has
    been asked of it and told to it, of the target, and of the clock. */
module Ledger {
  import opened Wire
  import opened Resources
  import opened SessionSpec
  import opened Numerals
  import MailPolicy

  /** What a session does that is visible outside it, besides the frames it writes. */
  datatype Effect =
    | Authenticated(accepted: bool)
    | Rejected(total: nat)
    | LookedUp
    | Built
    | Asked(target: string, allowed: bool)
    | Attempted(binding: Binding, outcome: Result<nat, Fault>)
    | Recorded(target: string, success: bool)
    | Dispatched(binding: Binding, client: nat, action: string, args: Option<Args>, handed: Option<MailPolicy.Message>)

  datatype Entry = Entry(sid: nat, effect: Effect)

  /** The effects of one session as entries of the shared log. */
  function Stamp(sid: nat, effects: seq<Effect>): seq<Entry> {
    seq(|effects|, i requires 0 <= i < |effects| => Entry(sid, effects[i]))
  }

  lemma StampAppend(sid: nat, some: seq<Effect>, more: seq<Effect>)
    ensures Stamp(sid, some + more) == Stamp(sid, some) + Stamp(sid, more)
  {
  }

  lemma StampTwice(sid: nat, log: seq<Entry>, some: seq<Effect>, more: seq<Effect>)
    ensures log + Stamp(sid, some) + Stamp(sid, more) == log + Stamp(sid, some + more)
  {
    StampAppend(sid, some, more);
  }

  lemma StampOne(sid: nat, e: Effect)
    ensures Stamp(sid, [e]) == [Entry(sid, e)]
  {
  }

  /** An operation as its driver sees it: under which binding, on which client, with which action and
      unpacked arguments, and - for mail - the message that is handed to the transport, if the operation
      gets that far. */
  function Dispatching(codec: Codec, kind: Kind, binding: Binding, client: nat, call: Call): Effect {
    Dispatched(binding, client, call.action, Unpacked(codec, kind, call.payload), Handing(codec, binding, call))
  }

  function Unpacked(codec: Codec, kind: Kind, payload: string): Option<Args> {
    match Unpack(codec, kind, payload)
    case Ok(args) => Some(args)
    case Err(_) => None
  }

  function Handing(codec: Codec, binding: Binding, call: Call): Option<MailPolicy.Message> {
    if binding.MailBinding? then MailPolicy.Handed(codec.mail, binding.mailConfig, call.action, call.payload) else None
  }

  type Policy = (seq<Entry>, string, nat) -> bool

  /** From position `since` on, every answer in the log is the breaker's own, on what it had heard by then. */
  ghost predicate Honest(policy: Option<Policy>, log: seq<Entry>, since: nat, now: nat) {
    forall k :: since <= k < |log| && log[k].effect.Asked? ==>
      policy.Some? && policy.value(log[..k], log[k].effect.target, now) == log[k].effect.allowed
  }

  lemma HonestSnoc(policy: Option<Policy>, log: seq<Entry>, e: Entry, since: nat, now: nat)
    requires Honest(policy, log, since, now)
    requires e.effect.Asked? ==> policy.Some? && policy.value(log, e.effect.target, now) == e.effect.allowed
    ensures Honest(policy, log + [e], since, now)
  {
    forall k | 0 <= k <= |log| ensures (log + [e])[..k] == log[..k] {
    }
    assert log[..|log|] == log;
  }

  datatype Config = Config(table: Table, ceilingMs: nat, policy: Option<Policy>, codec: Codec) {
    function Ground(): Ground {
      SessionSpec.Ground(table, ceilingMs, policy.Some?, codec)
    }
  }

  /** The breaker key of a db resource. */
  function Target(config: DbConfig): string {
    config.host + ":" + Decimal(config.port)
  }

  /** Text before a colon that is followed by digits only is determined by the whole. */
  lemma ColonSplitsOnce(a: string, p: string, b: string, q: string)
    requires AllDigits(p) && AllDigits(q)
    requires a + ":" + p == b + ":" + q
    ensures a == b && p == q
  {
    var s, t := a + ":" + p, b + ":" + q;
    assert s[|a|] == ':' && t[|b|] == ':';
    forall i | |a| < i < |s| ensures IsDigit(s[i]) {
      assert s[i] == p[i - |a| - 1];
    }
    forall i | |b| < i < |t| ensures IsDigit(t[i]) {
      assert t[i] == q[i - |b| - 1];
    }
    assert |a| == |b|;
    assert a == s[..|a|] && b == t[..|b|];
    assert p == s[|a| + 1..] && q == t[|b| + 1..];
  }

  /** Two db resources share a breaker key exactly when they have host and port in common, whatever
      the host looks like; so one endpoint's failures never trip another's breaker. */
  lemma TargetNamesOneEndpoint(one: DbConfig, two: DbConfig)
    ensures Target(one) == Target(two) <==> one.host == two.host && one.port == two.port
  {
    if Target(one) == Target(two) {
      ColonSplitsOnce(one.host, Decimal(one.port), two.host, Decimal(two.port));
      DecimalIsInjective(one.port, two.port);
    }
  }

  /** The failure counter is a 64-bit word. */
  const WORD: nat := 0x1_0000_0000_0000_0000

  /** Wrapping increment of the counter. */
  function Bump(failures: nat): nat {
    (failures + 1) % WORD
  }

  /** The total a rejection reports: the previous count plus one, saturating. */
  function TotalAfter(failures: nat): nat {
    if failures + 1 < WORD then failures + 1 else WORD - 1
  }

  class Shared {
    const config: Config
    var failures: nat
    var log: seq<Entry>

    constructor (config: Config)
      ensures this.config == config && failures == 0 && log == []
    {
      this.config := config;
      failures := 0;
      log := [];
    }

    method RecordAuthFailure(sid: nat) returns (total: nat)
      modifies this
      ensures failures == Bump(old(failures)) && total == TotalAfter(old(failures))
      ensures log == old(log) + [Entry(sid, Rejected(total))]
    {
      total := TotalAfter(failures);
      failures := Bump(failures);
      log := log + [Entry(sid, Rejected(total))];
    }

    method Allow(sid: nat, target: string, now: nat) returns (allowed: bool)
      requires config.policy.Some?
      modifies `log
      ensures allowed == config.policy.value(old(log), target, now)
      ensures log == old(log) + [Entry(sid, Asked(target, allowed))]
    {
      allowed := config.policy.value(log, target, now);
      log := log + [Entry(sid, Asked(target, allowed))];
    }

    method Record(sid: nat, target: string, success: bool)
      modifies `log
      ensures log == old(log) + [Entry(sid, Recorded(target, success))]
    {
      log := log + [Entry(sid, Recorded(target, success))];
    }

    /** Anything else worth remembering. */
    method Note(sid: nat, effect: Effect)
      modifies `log
      ensures log == old(log) + [Entry(sid, effect)]
    {
      log := log + [Entry(sid, effect)];
    }
  }
}
