/** What one tenant's session can learn of the others over whole runs: nothing through the table, the
    counter, the schedule or the other sessions, and at most one bit through the shared breaker. */
module Isolation {
  import opened Wire
  import opened Resources
  import opened SessionSpec
  import opened Ledger
  import opened DeedSpec
  import opened Sessions
  import opened Stories
  import opened Conduct
  import opened Exposure
  import opened Daemons

  /** Two daemons that differ at most in other tenants' entries and in their breaker's policy. */
  ghost predicate SameForTenant(one: Config, two: Config, tenant: Option<string>) {
    && two.Ground() == one.Ground().(table := two.table)
    && Visible(one.table, tenant) == Visible(two.table, tenant)
  }

  ghost predicate Comparable<T>(a: seq<T>, b: seq<T>) {
    a <= b || b <= a
  }

  lemma PrefixesCompare<T>(a: seq<T>, b: seq<T>, whole: seq<T>)
    requires a <= whole && b <= whole
    ensures Comparable(a, b)
  {
    assert a == whole[..|a|] && b == whole[..|b|];
  }

  /** The table is seen only through the tenant's own entries, in the effects as in the conversation. */
  lemma PrescribedSeesOnlyItsTenant(one: Config, two: Config, script: Script, init: Init, allow: bool, served: nat)
    requires script.first == Some(InitFrame(init)) && SameForTenant(one, two, init.tenant)
    requires served <= |script.exchanges|
    ensures Trace(one.Ground(), script, allow) == Trace(two.Ground(), script, allow)
    ensures Open(one.Ground(), script) == Open(two.Ground(), script)
    ensures Accepted(script) ==> forall m, n ::
      Prescribed(one.Ground(), script, allow, m, served) == Prescribed(two.Ground(), script, allow, n, served)
  {
    ResolveSeesOnlyItsTenant(one.table, two.table, init);
    TraceSeesOnlyItsTenant(one.Ground(), two.Ground(), script, init, allow);
  }

  /** Any answer will do for a session that is not exposed. */
  lemma UnexposedIgnores(g: Ground, script: Script, total: nat, a: bool, b: bool)
    requires !Exposed(g, script, |script.exchanges|)
    ensures Trace(g, script, a) == Trace(g, script, b)
    ensures forall n: nat :: n <= |script.exchanges| ==>
      Prescribed(g, script, a, total, n) == Prescribed(g, script, b, total, n)
  {
    TraceHingesOnTheBreaker(g, script);
    forall n: nat | n <= |script.exchanges|
      ensures Prescribed(g, script, a, total, n) == Prescribed(g, script, b, total, n)
    {
      EffectsHingeOnTheBreaker(g, script, total, n);
    }
  }

  /** An unexposed session in any run, under either answer. */
  lemma UnexposedRuns(cfg: Config, scripts: map<nat, Script>, moves: seq<Move>, sid: nat)
    requires sid in scripts && !Exposed(cfg.Ground(), scripts[sid], |scripts[sid].exchanges|)
    ensures var s, g, script := After(cfg, scripts, moves, sid), cfg.Ground(), scripts[sid];
      && s.written <= Trace(g, script, true)
      && (s.phase.Done? ==> s.written == Delivered(Trace(g, script, true), script.writable))
    ensures var s, g, script, deeds := After(cfg, scripts, moves, sid), cfg.Ground(), scripts[sid], Deeds(cfg, scripts, moves, sid);
      && deeds <= Prescribed(g, script, true, TotalTold(deeds), |script.exchanges|)
      && (s.phase.Done? ==> deeds == Prescribed(g, script, true, TotalTold(deeds), Served(script)))
  {
    var s := After(cfg, scripts, moves, sid);
    var allow :| Possible(s, allow);
    EverySessionKeepsToItsScript(cfg, scripts, moves, sid);
    InterleavedEqualsAlone(cfg, scripts, moves, sid, allow);
    UnexposedIgnores(cfg.Ground(), scripts[sid], TotalTold(Deeds(cfg, scripts, moves, sid)), allow, true);
  }

  /** Tenant isolation over whole runs. Two daemons agree on the entries bound to the session's tenant
      and may differ in every other entry, in their other sessions, in their schedules, clocks and
      breaker policies. If the session is not exposed to the breaker - a condition on its own script and
      configuration alone - they hold the same conversation with it, as far as each has got, and once it
      was accepted they do the same for it. */
  lemma TenantsAreIsolated(one: Config, two: Config, scripts: map<nat, Script>, others: map<nat, Script>,
                           moves: seq<Move>, schedule: seq<Move>, sid: nat, init: Init)
    requires sid in scripts && sid in others && scripts[sid] == others[sid]
    requires scripts[sid].first == Some(InitFrame(init)) && SameForTenant(one, two, init.tenant)
    requires !Exposed(one.Ground(), scripts[sid], |scripts[sid].exchanges|)
    ensures var s, t := After(one, scripts, moves, sid), After(two, others, schedule, sid);
      && Comparable(s.written, t.written)
      && (s.phase.Done? && t.phase.Done? ==> s.written == t.written)
    ensures var d, e := Deeds(one, scripts, moves, sid), Deeds(two, others, schedule, sid);
      Accepted(scripts[sid]) ==>
        && Comparable(d, e)
        && (After(one, scripts, moves, sid).phase.Done? && After(two, others, schedule, sid).phase.Done? ==> d == e)
  {
    var script := scripts[sid];
    PrescribedSeesOnlyItsTenant(one, two, script, init, true, |script.exchanges|);
    PrescribedSeesOnlyItsTenant(one, two, script, init, true, Served(script));
    UnexposedRuns(one, scripts, moves, sid);
    UnexposedRuns(two, others, schedule, sid);
    PrefixesCompare(After(one, scripts, moves, sid).written, After(two, others, schedule, sid).written,
                    Trace(one.Ground(), script, true));
    if Accepted(script) {
      var d, e := Deeds(one, scripts, moves, sid), Deeds(two, others, schedule, sid);
      PrefixesCompare(d, e, Prescribed(one.Ground(), script, true, TotalTold(d), |script.exchanges|));
    }
  }

  // -- The exact extent of the breaker's influence ------------------------------------

  /** A finished session that is exposed has its answer, and what it wrote is settled by it. */
  lemma ExposedWasAsked(cfg: Config, scripts: map<nat, Script>, moves: seq<Move>, sid: nat)
    requires sid in scripts && After(cfg, scripts, moves, sid).phase.Done?
    ensures var s, script := After(cfg, scripts, moves, sid), scripts[sid];
      && (Exposed(cfg.Ground(), script, Replied(script)) ==> s.asked.Some?)
      && (Exposed(cfg.Ground(), script, Served(script)) ==> s.asked.Some?)
  {
    var s, g, script := After(cfg, scripts, moves, sid), cfg.Ground(), scripts[sid];
    if s.asked.None? {
      InterleavedEqualsAlone(cfg, scripts, moves, sid, true);
      InterleavedEqualsAlone(cfg, scripts, moves, sid, false);
      ConversationHingesOnTheBreaker(g, script);
      EffectsHingeOnTheBreaker(g, script, TotalTold(Deeds(cfg, scripts, moves, sid)), Served(script));
    }
  }

  /** The answer a session may be taken to have got. */
  ghost function AnswerGiven(s: Session): (allow: bool)
    ensures Possible(s, allow)
  {
    if s.asked.Some? then s.asked.value else true
  }

  /** Tenants meet at the breaker and nowhere else: two finished runs of a session, with anything
      different around it, give the same conversation if and only if the session is not exposed within
      the answers that got through or was given the same answer; and likewise for its effects. */
  lemma TenantsMeetOnlyAtTheBreaker(one: Config, two: Config, scripts: map<nat, Script>, others: map<nat, Script>,
                                    moves: seq<Move>, schedule: seq<Move>, sid: nat, init: Init)
    requires sid in scripts && sid in others && scripts[sid] == others[sid]
    requires scripts[sid].first == Some(InitFrame(init)) && SameForTenant(one, two, init.tenant)
    requires After(one, scripts, moves, sid).phase.Done? && After(two, others, schedule, sid).phase.Done?
    ensures var s, t := After(one, scripts, moves, sid), After(two, others, schedule, sid);
      s.written == t.written <==>
        !Exposed(one.Ground(), scripts[sid], Replied(scripts[sid])) || s.asked == t.asked
    ensures var s, t := After(one, scripts, moves, sid), After(two, others, schedule, sid);
      Accepted(scripts[sid]) ==>
        (Deeds(one, scripts, moves, sid) == Deeds(two, others, schedule, sid) <==>
           !Exposed(one.Ground(), scripts[sid], Served(scripts[sid])) || s.asked == t.asked)
  {
    var s, t, script, g := After(one, scripts, moves, sid), After(two, others, schedule, sid), scripts[sid], one.Ground();
    var a, b := AnswerGiven(s), AnswerGiven(t);
    ExposedWasAsked(one, scripts, moves, sid);
    ExposedWasAsked(two, others, schedule, sid);
    InterleavedEqualsAlone(one, scripts, moves, sid, a);
    InterleavedEqualsAlone(two, others, schedule, sid, b);
    PrescribedSeesOnlyItsTenant(one, two, script, init, b, Served(script));
    ConversationHingesOnTheBreaker(g, script);
    EffectsHingeOnTheBreaker(g, script, TotalTold(Deeds(one, scripts, moves, sid)), Served(script));
    SameExposure(one, two, script, Replied(script));
    SameExposure(one, two, script, Served(script));
  }

  lemma SameExposure(one: Config, two: Config, script: Script, n: nat)
    requires two.Ground() == one.Ground().(table := two.table) && n <= |script.exchanges|
    requires Open(one.Ground(), script) == Open(two.Ground(), script)
    ensures Exposed(one.Ground(), script, n) <==> Exposed(two.Ground(), script, n)
  {
  }
}
