/** The one way in which tenants do feel each other, shown at work: a session whose db connect fails can
    turn another tenant's first db call on the same endpoint into a refusal. */
module Neighbours {
  import opened Wire
  import opened Resources
  import opened ClientAuth
  import opened SessionSpec
  import opened Ledger
  import opened DeedSpec
  import opened Sessions
  import opened Stories
  import opened Conduct
  import opened Exposure
  import opened Daemons
  import opened Isolation

  /** A breaker that opens for good after one recorded failure. */
  predicate Wary(log: seq<Entry>, target: string, now: nat) {
    forall i :: 0 <= i < |log| ==> log[i].effect != Recorded(target, false)
  }

  function Turn(sid: nat, n: nat): seq<Move> {
    seq(n, _ => Move(sid, 0))
  }

  /** Turns enough for a session to finish. */
  function Enough(script: Script): nat {
    7 * |script.exchanges| + 5
  }

  // -- Schedules ------------------------------------------------------------------------

  lemma {:induction false} RunAppends(cfg: Config, d: Daemon, some: seq<Move>, more: seq<Move>)
    ensures Run(cfg, d, some + more) == Run(cfg, Run(cfg, d, some), more)
    decreases |more|
  {
    if more == [] {
      assert some + more == some;
    } else {
      var n := |more| - 1;
      assert (some + more)[..|some + more| - 1] == some + more[..n];
      RunAppends(cfg, d, some, more[..n]);
    }
  }

  lemma {:induction false} LogGrows(cfg: Config, d: Daemon, moves: seq<Move>)
    ensures d.log <= Run(cfg, d, moves).log
    decreases |moves|
  {
    if moves != [] {
      LogGrows(cfg, d, moves[..|moves| - 1]);
    }
  }

  lemma {:induction false} TurnsCount(sid: nat, n: nat, some: seq<Move>)
    ensures Turns(some + Turn(sid, n), sid) == Turns(some, sid) + n
    decreases n
  {
    if n == 0 {
      assert some + Turn(sid, n) == some;
    } else {
      assert (some + Turn(sid, n))[..|some| + n - 1] == some + Turn(sid, n - 1);
      TurnsCount(sid, n - 1, some);
    }
  }

  /** Enough turns finish a session, whatever came before. */
  lemma EnoughIsEnough(cfg: Config, scripts: map<nat, Script>, some: seq<Move>, sid: nat)
    requires sid in scripts
    ensures After(cfg, scripts, some + Turn(sid, Enough(scripts[sid])), sid).phase.Done?
  {
    EverySessionFinishes(cfg, scripts, some + Turn(sid, Enough(scripts[sid])), sid);
    TurnsCount(sid, Enough(scripts[sid]), some);
  }

  /** A session that had no turn has done nothing. */
  lemma {:induction false} NoTurnNoDeed(cfg: Config, scripts: map<nat, Script>, n: nat, mover: nat, sid: nat)
    requires sid in scripts && sid != mover
    ensures After(cfg, scripts, Turn(mover, n), sid) == NewSession(scripts[sid])
    decreases n
  {
    if n > 0 {
      assert Turn(mover, n)[..n - 1] == Turn(mover, n - 1);
      NoTurnNoDeed(cfg, scripts, n - 1, mover, sid);
    }
  }

  // -- What an exposed session leaves in the log ------------------------------------------

  /** A finished exposed session was given the answer that its question in the log carries. */
  lemma AskedIsLogged(cfg: Config, scripts: map<nat, Script>, moves: seq<Move>, sid: nat) returns (i: nat)
    requires sid in scripts && After(cfg, scripts, moves, sid).phase.Done?
    requires Exposed(cfg.Ground(), scripts[sid], Served(scripts[sid]))
    ensures var log, s := Run(cfg, Boot(scripts), moves).log, After(cfg, scripts, moves, sid);
      && i < |log| && s.asked.Some?
      && log[i] == Entry(sid, Asked(TargetOf(cfg.Ground(), scripts[sid]), s.asked.value))
  {
    var s := After(cfg, scripts, moves, sid);
    ExposedWasAsked(cfg, scripts, moves, sid);
    InterleavedEqualsAlone(cfg, scripts, moves, sid, s.asked.value);
    ExposedAsks(cfg.Ground(), scripts[sid], s.asked.value, TotalTold(Deeds(cfg, scripts, moves, sid)), Served(scripts[sid]));
    i := ProjectedHasEntry(Run(cfg, Boot(scripts), moves).log, sid, Asked(TargetOf(cfg.Ground(), scripts[sid]), s.asked.value));
  }

  ghost predicate Failed(log: seq<Entry>, target: string) {
    exists k :: 0 <= k < |log| && log[k].effect == Recorded(target, false)
  }

  lemma WaryAnswer(cfg: Config, scripts: map<nat, Script>, moves: seq<Move>, i: nat)
    requires cfg.policy == Some(Wary)
    requires i < |Run(cfg, Boot(scripts), moves).log| && Run(cfg, Boot(scripts), moves).log[i].effect.Asked?
    ensures var log := Run(cfg, Boot(scripts), moves).log;
      log[i].effect.allowed <==> !Failed(log[..i], log[i].effect.target)
  {
    AnswersComeFromTheBreaker(cfg, scripts, moves);
    var log := Run(cfg, Boot(scripts), moves).log;
    assert AnsweredAt(cfg, log, i);
    var now: nat :| cfg.policy.value(log[..i], log[i].effect.target, now) == log[i].effect.allowed;
    assert Wary(log[..i], log[i].effect.target, now) == log[i].effect.allowed;
  }

  // -- Two runs ---------------------------------------------------------------------------

  /** Alone, the session is allowed. */
  lemma AloneIsAllowed(cfg: Config, victim: Script)
    requires cfg.policy == Some(Wary) && Exposed(cfg.Ground(), victim, Served(victim))
    ensures var s := After(cfg, map[0 := victim], Turn(0, Enough(victim)), 0);
      s.phase.Done? && s.asked == Some(true)
  {
    var scripts, moves := map[0 := victim], Turn(0, Enough(victim));
    assert [] + moves == moves;
    EnoughIsEnough(cfg, scripts, [], 0);
    var s, log := After(cfg, scripts, moves, 0), Run(cfg, Boot(scripts), moves).log;
    var i := AskedIsLogged(cfg, scripts, moves, 0);
    if s.asked == Some(false) {
      RefusedRecordsNothing(cfg, victim, moves, i);
    }
    WaryAnswer(cfg, scripts, moves, i);
  }

  /** In a daemon with one session, nothing is recorded when that session is refused. */
  lemma RefusedRecordsNothing(cfg: Config, victim: Script, moves: seq<Move>, i: nat)
    requires cfg.policy.Some?
    requires var log := Run(cfg, Boot(map[0 := victim]), moves).log;
      i < |log| && log[i].sid == 0 && log[i].effect.Asked? && !log[i].effect.allowed
    ensures var log := Run(cfg, Boot(map[0 := victim]), moves).log;
      forall k :: 0 <= k < |log| ==> !log[k].effect.Recorded?
  {
    var scripts := map[0 := victim];
    var log := Run(cfg, Boot(scripts), moves).log;
    RunKeepsInv(cfg, scripts, moves);
    BreakerIsObeyed(cfg, scripts, moves, 0);
    EntryIsFiltered(log, BreakerTalk, i);
    forall k | 0 <= k < |log| ensures About(log[k].effect, BreakerTalk) ==> log[k].effect == log[i].effect {
      EntryIsProjected(log, k);
      assert log[k].sid == 0;
      if About(log[k].effect, BreakerTalk) {
        EntryIsFiltered(log, BreakerTalk, k);
        RefusalStandsAlone(Filter(Project(log, 0), BreakerTalk), log[i].effect, log[k].effect);
      }
    }
  }

  lemma RefusalStandsAlone(story: seq<Effect>, asked: Effect, other: Effect)
    requires Lawful(story) && (story != [] && !story[0].allowed ==> |story| == 1)
    requires asked in story && asked.Asked? && !asked.allowed
    requires other in story
    ensures other == asked
  {
  }

  /** A question of the second mover comes after everything the first one did. */
  lemma SecondMoverAsksLater(cfg: Config, victim: Script, neighbour: Script, i: nat)
    requires var moves := Turn(1, Enough(neighbour)) + Turn(0, Enough(victim));
      var log := Run(cfg, Boot(map[0 := victim, 1 := neighbour]), moves).log;
      i < |log| && log[i].sid == 0
    ensures var scripts, first := map[0 := victim, 1 := neighbour], Turn(1, Enough(neighbour));
      var before, log := Run(cfg, Boot(scripts), first).log, Run(cfg, Boot(scripts), first + Turn(0, Enough(victim))).log;
      |before| <= i && log[..|before|] == before
  {
    var scripts, first := map[0 := victim, 1 := neighbour], Turn(1, Enough(neighbour));
    var d := Run(cfg, Boot(scripts), first);
    RunAppends(cfg, Boot(scripts), first, Turn(0, Enough(victim)));
    LogGrows(cfg, d, Turn(0, Enough(victim)));
    NotAmong(cfg, scripts, Enough(neighbour), 1, 0);
    assert forall j :: 0 <= j < |d.log| ==> Run(cfg, d, Turn(0, Enough(victim))).log[j] == d.log[j];
  }

  lemma FailedStays(before: seq<Entry>, log: seq<Entry>, i: nat, target: string)
    requires |before| <= i <= |log| && log[..|before|] == before && Failed(before, target)
    ensures Failed(log[..i], target)
  {
    var k :| 0 <= k < |before| && before[k].effect == Recorded(target, false);
    assert log[..i][k] == log[..|before|][k] == before[k];
  }

  /** After a failed connect on its endpoint, it is refused. */
  lemma AfterFailureIsRefused(cfg: Config, victim: Script, neighbour: Script)
    requires cfg.policy == Some(Wary)
    requires Exposed(cfg.Ground(), victim, Served(victim)) && FailsFirst(cfg.Ground(), neighbour)
    requires TargetOf(cfg.Ground(), victim) == TargetOf(cfg.Ground(), neighbour)
    ensures var s := After(cfg, map[0 := victim, 1 := neighbour], Turn(1, Enough(neighbour)) + Turn(0, Enough(victim)), 0);
      s.phase.Done? && s.asked == Some(false)
  {
    var scripts, first := map[0 := victim, 1 := neighbour], Turn(1, Enough(neighbour));
    var moves := first + Turn(0, Enough(victim));
    EnoughIsEnough(cfg, scripts, first, 0);
    var i := AskedIsLogged(cfg, scripts, moves, 0);
    FailureIsLogged(cfg, victim, neighbour);
    SecondMoverAsksLater(cfg, victim, neighbour, i);
    FailedStays(Run(cfg, Boot(scripts), first).log, Run(cfg, Boot(scripts), moves).log, i, TargetOf(cfg.Ground(), victim));
    WaryAnswer(cfg, scripts, moves, i);
  }

  lemma NotAmong(cfg: Config, scripts: map<nat, Script>, n: nat, mover: nat, sid: nat)
    requires sid in scripts && sid != mover
    ensures forall i :: 0 <= i < |Run(cfg, Boot(scripts), Turn(mover, n)).log| ==>
      Run(cfg, Boot(scripts), Turn(mover, n)).log[i].sid != sid
  {
    var log := Run(cfg, Boot(scripts), Turn(mover, n)).log;
    RunKeepsInv(cfg, scripts, Turn(mover, n));
    NoTurnNoDeed(cfg, scripts, n, mover, sid);
    forall i | 0 <= i < |log| ensures log[i].sid != sid {
      EntryIsProjected(log, i);
    }
  }

  /** A session whose first db connect fails. */
  ghost predicate FailsFirst(g: Ground, script: Script) {
    && Exposed(g, script, Served(script))
    && FirstCall(Db, script.exchanges).Some? && FirstCall(Db, script.exchanges).value.connect.Err?
  }

  lemma FailureIsLogged(cfg: Config, victim: Script, neighbour: Script)
    requires cfg.policy == Some(Wary) && FailsFirst(cfg.Ground(), neighbour)
    ensures Failed(Run(cfg, Boot(map[0 := victim, 1 := neighbour]), Turn(1, Enough(neighbour))).log,
                   TargetOf(cfg.Ground(), neighbour))
  {
    var scripts, moves := map[0 := victim, 1 := neighbour], Turn(1, Enough(neighbour));
    assert [] + moves == moves;
    EnoughIsEnough(cfg, scripts, [], 1);
    var log, s := Run(cfg, Boot(scripts), moves).log, After(cfg, scripts, moves, 1);
    var target := TargetOf(cfg.Ground(), neighbour);
    var i := AskedIsLogged(cfg, scripts, moves, 1);
    WaryAnswer(cfg, scripts, moves, i);
    if s.asked.value {
      InterleavedEqualsAlone(cfg, scripts, moves, 1, true);
      ExposedAsks(cfg.Ground(), neighbour, true, TotalTold(Deeds(cfg, scripts, moves, 1)), Served(neighbour));
      var k := ProjectedHasEntry(log, 1, Recorded(target, false));
    } else {
      var k :| 0 <= k < i && log[..i][k].effect == Recorded(target, false);
      assert log[k].effect == Recorded(target, false);
    }
  }

  /** The condition of isolation cannot be dropped: for every exposed session there is a breaker - one
      that opens after a failure - such that a neighbour's failed connect on the same endpoint, under any
      other tenant, changes the conversation with it. The two daemons have the same table and policy. */
  lemma FailuresAreFeltNextDoor(cfg: Config, victim: Script, neighbour: Script, init: Init)
    requires cfg.policy == Some(Wary) && victim.first == Some(InitFrame(init))
    requires Exposed(cfg.Ground(), victim, Replied(victim)) && FailsFirst(cfg.Ground(), neighbour)
    requires TargetOf(cfg.Ground(), victim) == TargetOf(cfg.Ground(), neighbour)
    ensures var alone := After(cfg, map[0 := victim], Turn(0, Enough(victim)), 0);
      var later := After(cfg, map[0 := victim, 1 := neighbour], Turn(1, Enough(neighbour)) + Turn(0, Enough(victim)), 0);
      alone.phase.Done? && later.phase.Done? && alone.written != later.written
  {
    assert Exposed(cfg.Ground(), victim, Served(victim));
    AloneIsAllowed(cfg, victim);
    AfterFailureIsRefused(cfg, victim, neighbour);
    TenantsMeetOnlyAtTheBreaker(cfg, cfg, map[0 := victim], map[0 := victim, 1 := neighbour],
      Turn(0, Enough(victim)), Turn(1, Enough(neighbour)) + Turn(0, Enough(victim)), 0, init);
  }

  // -- A case in point ----------------------------------------------------------------------

  /** Two tenants, each with credentials and a database of its own on one db server. */
  const SERVER := DbConfig("db.internal", 5432, "orders", "secret", "orders", true, 0, 100)

  function TwoTenants(): Table {
    map["orders" := TenantBinding(Some("acme"), DbBinding(SERVER)),
        "stock" := TenantBinding(Some("globex"), DbBinding(SERVER.(user := "stock", password := "other", database := "stock")))]
  }

  /** A session that opens one resource and queries it once. */
  function OneQuery(name: string, tenant: string, connect: Result<nat, Fault>): Script {
    Script(AcceptAll, Ok(()),
           Some(InitFrame(Init(Some(name), None, None, None, None, None, Some(tenant), None, 1000))),
           [Exchange(CallFrame(Call("db", "query", "{}")), connect, Ok(Outcome("[]", NO_STATS)), 0)], None)
  }

  lemma OneQueryOpens(codec: Codec, connect: Result<nat, Fault>)
    ensures var g := Ground(TwoTenants(), 0, true, codec);
      && Open(g, OneQuery("orders", "acme", connect)) == Opened(Resolved(Some(SERVER), None, None, None, None, None))
      && Open(g, OneQuery("stock", "globex", connect)).Opened?
      && Open(g, OneQuery("stock", "globex", connect)).configs.db
           == Some(SERVER.(user := "stock", password := "other", database := "stock"))
  {
  }

  /** One tenant's failed connect is felt by the other: what the second session is told depends on
      whether the first one ran. */
  lemma TenantsShareTheBreaker(codec: Codec, fault: Fault)
    ensures var cfg, mine, theirs := Config(TwoTenants(), 0, Some(Wary), codec),
        OneQuery("orders", "acme", Ok(7)), OneQuery("stock", "globex", Err(fault));
      After(cfg, map[0 := mine], Turn(0, 12), 0).written
        != After(cfg, map[0 := mine, 1 := theirs], Turn(1, 12) + Turn(0, 12), 0).written
  {
    var cfg, mine, theirs := Config(TwoTenants(), 0, Some(Wary), codec),
      OneQuery("orders", "acme", Ok(7)), OneQuery("stock", "globex", Err(fault));
    OneQueryOpens(codec, Ok(7));
    OneQueryOpens(codec, Err(fault));
    assert Calls(mine.exchanges[0], Db) && Calls(theirs.exchanges[0], Db);
    FirstCallStays(Db, theirs.exchanges, 0);
    FailuresAreFeltNextDoor(cfg, mine, theirs, mine.first.value.init);
  }
}
