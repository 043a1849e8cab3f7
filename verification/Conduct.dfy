/** What every step keeps about the effects of a session as a whole: in every phase its log is exactly
    what its history prescribes up to that point. */
module Conduct {
  import opened Wire
  import opened Resources
  import opened SessionSpec
  import opened Ledger
  import opened DeedSpec
  import opened Backends
  import opened Sessions

  /** The total a rejected session was told. */
  function TotalTold(log: seq<Effect>): nat {
    if |log| >= 2 && log[1].Rejected? then log[1].total else 0
  }

  /** Judged, looked up, built, and done with the first `served` requests. */
  ghost function Base(g: Ground, script: Script, allow: bool, served: nat): seq<Effect>
    requires Open(g, script).Opened? && served <= |script.exchanges|
  {
    PROLOGUE + Doings(ViewOf(g, script, allow), script.exchanges[..served])
  }

  /** What the call in progress has done so far. */
  ghost function SoFar(g: Ground, s: Session, allow: bool): seq<Effect>
    requires Open(g, s.script).Opened?
  {
    match s.phase
    case Connecting(kind) =>
      if kind == Db && g.guarded && Db in s.slots && s.slots[Db].binding.DbBinding?
      then [Asked(Target(s.slots[Db].binding.dbConfig), true)]
      else []
    case Recording(outcome) =>
      if Db in s.slots && s.slots[Db].binding.DbBinding?
      then [Asked(Target(s.slots[Db].binding.dbConfig), true), Attempted(s.slots[Db].binding, outcome)]
      else []
    case Operating(kind) =>
      if InCall(s) then Settling(ViewOf(g, s.script, allow), kind, s.script.exchanges[..s.read - 1], Current(s)) else []
    case _ => []
  }

  /** The log of a call in progress. */
  ghost predicate CallConduct(g: Ground, s: Session, allow: bool) {
    && Open(g, s.script).Opened? && InCall(s)
    && s.log == Base(g, s.script, allow, s.read - 1) + SoFar(g, s, allow)
  }

  /** The log between requests and at the end. */
  ghost predicate RestConduct(g: Ground, s: Session, allow: bool) {
    && s.read <= |s.script.exchanges|
    && s.log ==
         if Open(g, s.script).Opened? then Base(g, s.script, allow, s.read)
         else Prescribed(g, s.script, allow, TotalTold(s.log), s.read)
  }

  ghost predicate Conducts(g: Ground, s: Session, allow: bool) {
    && (s.script.writable.Some? ==> |s.written| <= s.script.writable.value)
    && match s.phase
       case Start => s.log == []
       case Opening(_) => s.log == []
       case Refusing(_) => s.log == [Authenticated(false)]
       case Trusted(_) => s.log == [Authenticated(true)]
       case Writing(_, _) => RestConduct(g, s, allow)
       case Idle => RestConduct(g, s, allow)
       case Serving => CallConduct(g, s, allow)
       case Connecting(_) => CallConduct(g, s, allow)
       case Recording(_) => CallConduct(g, s, allow) && g.guarded
       case Operating(_) => CallConduct(g, s, allow)
       case Done =>
         && RestConduct(g, s, allow)
         && (Open(g, s.script).Opened? ==> s.read == Served(s.script))
  }

  lemma NewConducts(g: Ground, script: Script, allow: bool)
    ensures Conducts(g, NewSession(script), allow)
  {
  }

  /** An open session was accepted, and its prescribed effects start with the prologue. */
  lemma OpenPrescribes(g: Ground, script: Script, allow: bool, total: nat, served: nat)
    requires Open(g, script).Opened? && served <= |script.exchanges|
    ensures Prescribed(g, script, allow, total, served) == Base(g, script, allow, served)
  {
  }

  lemma OpeningConducts(cfg: Config, s: Session, w: World, now: nat, allow: bool)
    requires OnScript(cfg.Ground(), s, allow) && Conducts(cfg.Ground(), s, allow)
    requires s.phase.Start? || s.phase.Opening? || s.phase.Refusing?
    ensures Conducts(cfg.Ground(), Advance(cfg, s, w, now), allow)
  {
  }

  lemma TrustedConducts(cfg: Config, s: Session, w: World, now: nat, allow: bool)
    requires OnScript(cfg.Ground(), s, allow) && Conducts(cfg.Ground(), s, allow)
    requires s.phase.Trusted?
    ensures Conducts(cfg.Ground(), Advance(cfg, s, w, now), allow)
  {
    var g, next := cfg.Ground(), Advance(cfg, s, w, now);
    if Open(g, s.script).Opened? {
      assert s.script.exchanges[..0] == [];
      assert next.log == PROLOGUE;
    } else {
      assert next.log == [Authenticated(true), LookedUp];
    }
  }

  lemma WritingConducts(cfg: Config, s: Session, w: World, now: nat, allow: bool)
    requires OnScript(cfg.Ground(), s, allow) && Conducts(cfg.Ground(), s, allow)
    requires s.phase.Writing?
    ensures Conducts(cfg.Ground(), Advance(cfg, s, w, now), allow)
  {
    var more := s.phase.more;
    if more {
      assert Open(cfg.Ground(), s.script).Opened? && |s.written| == s.read;
    } else {
      assert !Open(cfg.Ground(), s.script).Opened?;
    }
    WriteConducts(cfg.Ground(), s, StepWriting(s, s.phase.response, more), allow, more);
  }

  lemma WriteConducts(g: Ground, s: Session, next: Session, allow: bool, more: bool)
    requires Conducts(g, s, allow) && s.phase.Writing?
    requires Open(g, s.script).Opened? == more && (more ==> |s.written| == s.read)
    requires next.script == s.script && next.log == s.log && next.read == s.read
    requires if s.script.writable == Some(|s.written|) then next.phase.Done? && next.written == s.written
             else |next.written| == |s.written| + 1 && next.phase == if more then Idle else Done
    ensures Conducts(g, next, allow)
  {
  }

  /** What reading changes. */
  ghost predicate ReadMove(s: Session, next: Session) {
    && next.script == s.script && next.log == s.log && next.written == s.written
    && if s.read >= |s.script.exchanges| then next.read == s.read && next.phase == Done
       else
         && next.read == s.read + 1
         && if s.script.exchanges[s.read].request.CallFrame? then next.phase == Serving else next.phase.Writing?
  }

  lemma IdleReads(s: Session)
    ensures ReadMove(s, StepIdle(s))
  {
  }

  lemma ReadingConducts(g: Ground, s: Session, next: Session, allow: bool)
    requires Conducts(g, s, allow) && s.phase.Idle? && ReadMove(s, next)
    requires Open(g, s.script).Opened? && |s.written| == s.read + 1
    ensures Conducts(g, next, allow)
  {
    var xs := s.script.exchanges;
    if s.read >= |xs| {
      assert next.read == Served(next.script);
    } else if xs[s.read].request.CallFrame? {
      assert SoFar(g, next, allow) == [];
    } else {
      OtherFramesDoNothing(g, s.script, allow, s.read);
    }
  }

  lemma OtherFramesDoNothing(g: Ground, script: Script, allow: bool, i: nat)
    requires Open(g, script).Opened? && i < |script.exchanges| && !script.exchanges[i].request.CallFrame?
    ensures Base(g, script, allow, i + 1) == Base(g, script, allow, i)
  {
    DoingsSnoc(ViewOf(g, script, allow), script.exchanges, i);
  }

  lemma IdleConducts(cfg: Config, s: Session, w: World, now: nat, allow: bool)
    requires OnScript(cfg.Ground(), s, allow) && Conducts(cfg.Ground(), s, allow)
    requires s.phase.Idle?
    ensures Conducts(cfg.Ground(), Advance(cfg, s, w, now), allow)
  {
    IdleReads(s);
    ReadingConducts(cfg.Ground(), s, Advance(cfg, s, w, now), allow);
  }

  // -- In a call ----------------------------------------------------------------

  lemma BaseGrows(g: Ground, script: Script, allow: bool, i: nat)
    requires Open(g, script).Opened? && i < |script.exchanges|
    ensures Base(g, script, allow, i + 1) ==
      Base(g, script, allow, i) + DeedsOf(ViewOf(g, script, allow), script.exchanges[..i], script.exchanges[i])
  {
    DoingsSnoc(ViewOf(g, script, allow), script.exchanges, i);
  }

  /** The step of a call that ends it. */
  lemma CallEnds(g: Ground, s: Session, next: Session, allow: bool)
    requires CallConduct(g, s, allow)
    requires next.script == s.script && next.read == s.read && next.written == s.written && next.phase.Writing?
    requires s.script.writable.Some? ==> |s.written| <= s.script.writable.value
    requires var v, past, x := ViewOf(g, s.script, allow), s.script.exchanges[..s.read - 1], Current(s);
      next.log == Base(g, s.script, allow, s.read - 1) + DeedsOf(v, past, x)
    ensures Conducts(g, next, allow)
  {
    BaseGrows(g, s.script, allow, s.read - 1);
  }

  lemma RoutingConducts(cfg: Config, s: Session, w: World, now: nat, allow: bool)
    requires OnScript(cfg.Ground(), s, allow) && Conducts(cfg.Ground(), s, allow)
    requires s.phase.Serving?
    requires KindOf(Current(s).request.call.name).None? || KindOf(Current(s).request.call.name).value !in s.slots
    ensures Conducts(cfg.Ground(), Advance(cfg, s, w, now), allow)
  {
    var g := cfg.Ground();
    Unserved(ViewOf(g, s.script, allow), s.slots, s.script.exchanges[..s.read - 1], Current(s));
    CallEnds(g, s, Advance(cfg, s, w, now), allow);
  }

  lemma TriedConducts(cfg: Config, s: Session, w: World, now: nat, allow: bool, kind: Kind)
    requires OnScript(cfg.Ground(), s, allow) && Conducts(cfg.Ground(), s, allow)
    requires s.phase.Serving?
    requires KindOf(Current(s).request.call.name) == Some(kind) && kind in s.slots && !s.slots[kind].cell.Vacant?
    ensures Conducts(cfg.Ground(), Advance(cfg, s, w, now), allow)
  {
    var g := cfg.Ground();
    TriedSettles(ViewOf(g, s.script, allow), s.slots, s.script.exchanges[..s.read - 1], Current(s), kind);
    CallStays(g, s, Goto(s, Operating(kind)), allow);
  }

  /** A step within a call that has no effect. */
  lemma CallStays(g: Ground, s: Session, next: Session, allow: bool)
    requires CallConduct(g, s, allow) && (s.script.writable.Some? ==> |s.written| <= s.script.writable.value)
    requires next.script == s.script && next.read == s.read && next.written == s.written && next.log == s.log
    requires next.phase.Connecting? || next.phase.Operating?
    requires SoFar(g, next, allow) == SoFar(g, s, allow)
    ensures Conducts(g, next, allow)
  {
  }

  /** Routing to a vacant cell asks exactly if it is the db behind a breaker. */
  ghost predicate AskedIfGuarded(guarded: bool, s: Session, next: Session, kind: Kind)
    requires kind in s.slots
  {
    if s.slots[kind].binding.DbBinding? && guarded then
      next.asked.Some? && next.log == s.log + [Asked(Target(s.slots[kind].binding.dbConfig), next.asked.value)]
    else next.log == s.log
  }

  lemma VacantAsks(cfg: Config, s: Session, w: World, now: nat, kind: Kind)
    requires s.phase.Serving? && InCall(s)
    requires KindOf(Current(s).request.call.name) == Some(kind) && kind in s.slots && s.slots[kind].cell.Vacant?
    ensures AskedIfGuarded(cfg.policy.Some?, s, Advance(cfg, s, w, now), kind)
  {
  }

  lemma VacantConducts(g: Ground, s: Session, next: Session, allow: bool, kind: Kind)
    requires Conducts(g, s, allow) && s.phase.Serving? && Midway(g, s, allow)
    requires kind in s.slots && s.slots[kind].cell.Vacant? && s.slots[kind].binding.Kind() == kind
    requires VacantMove(g.guarded, s, next, kind) && AskedIfGuarded(g.guarded, s, next, kind)
    requires Possible(next, allow)
    ensures Conducts(g, next, allow)
  {
    if next.phase.Operating? {
      VacantSettles(ViewOf(g, s.script, allow), s.slots, s.script.exchanges[..s.read - 1], Current(s), kind, allow);
    }
  }

  lemma AskingConducts(cfg: Config, s: Session, w: World, now: nat, allow: bool, kind: Kind)
    requires OnScript(cfg.Ground(), s, allow) && Conducts(cfg.Ground(), s, allow)
    requires s.phase.Serving?
    requires KindOf(Current(s).request.call.name) == Some(kind) && kind in s.slots && s.slots[kind].cell.Vacant?
    requires Possible(Advance(cfg, s, w, now), allow)
    ensures Conducts(cfg.Ground(), Advance(cfg, s, w, now), allow)
  {
    WiredKinds(Open(cfg.Ground(), s.script).configs, s.slots);
    VacantIsAsked(cfg, s, w, now, kind);
    VacantAsks(cfg, s, w, now, kind);
    VacantConducts(cfg.Ground(), s, Advance(cfg, s, w, now), allow, kind);
  }

  lemma ServingConducts(cfg: Config, s: Session, w: World, now: nat, allow: bool)
    requires OnScript(cfg.Ground(), s, allow) && Conducts(cfg.Ground(), s, allow)
    requires s.phase.Serving? && Possible(Advance(cfg, s, w, now), allow)
    ensures Conducts(cfg.Ground(), Advance(cfg, s, w, now), allow)
  {
    var route := KindOf(Current(s).request.call.name);
    if route.None? || route.value !in s.slots {
      RoutingConducts(cfg, s, w, now, allow);
    } else if s.slots[route.value].cell.Vacant? {
      AskingConducts(cfg, s, w, now, allow, route.value);
    } else {
      TriedConducts(cfg, s, w, now, allow, route.value);
    }
  }

  lemma ConnectingConducts(cfg: Config, s: Session, w: World, now: nat, allow: bool)
    requires OnScript(cfg.Ground(), s, allow) && Conducts(cfg.Ground(), s, allow)
    requires s.phase.Connecting?
    ensures Conducts(cfg.Ground(), Advance(cfg, s, w, now), allow)
  {
    var g, kind := cfg.Ground(), s.phase.kind;
    WiredKinds(Open(g, s.script).configs, s.slots);
    ConnectingTries(cfg, s, kind);
    TryConducts(g, s, StepConnecting(cfg, s, kind), allow, kind);
  }

  lemma TryConducts(g: Ground, s: Session, next: Session, allow: bool, kind: Kind)
    requires Conducts(g, s, allow) && s.phase == Connecting(kind) && Midway(g, s, allow)
    requires kind in s.slots && s.slots[kind].cell.Vacant? && s.slots[kind].binding.Kind() == kind
    requires TryMove(g.guarded, s, next, kind)
    ensures Conducts(g, next, allow)
  {
    TryAdds(g, s, next, allow, kind);
    CallGoesOn(g, s, next, allow, Attempted(s.slots[kind].binding, Current(s).connect));
  }

  /** A step within a call that has one more of its effects. */
  lemma CallGoesOn(g: Ground, s: Session, next: Session, allow: bool, e: Effect)
    requires CallConduct(g, s, allow) && (s.script.writable.Some? ==> |s.written| <= s.script.writable.value)
    requires next.script == s.script && next.read == s.read && next.written == s.written
    requires next.phase.Connecting? || next.phase.Operating? || (next.phase.Recording? && g.guarded)
    requires next.log == s.log + [e] && SoFar(g, next, allow) == SoFar(g, s, allow) + [e]
    ensures Conducts(g, next, allow)
  {
    Associative(Base(g, s.script, allow, s.read - 1), SoFar(g, s, allow), [e]);
  }

  lemma TryAdds(g: Ground, s: Session, next: Session, allow: bool, kind: Kind)
    requires s.phase == Connecting(kind) && Midway(g, s, allow)
    requires kind in s.slots && s.slots[kind].cell.Vacant? && s.slots[kind].binding.Kind() == kind
    requires TryMove(g.guarded, s, next, kind)
    ensures SoFar(g, next, allow) == SoFar(g, s, allow) + [Attempted(s.slots[kind].binding, Current(s).connect)]
  {
    if !s.slots[kind].binding.DbBinding? || !g.guarded {
      VacantSettles(ViewOf(g, s.script, allow), s.slots, s.script.exchanges[..s.read - 1], Current(s), kind, allow);
      UnguardedTryAdds(g, s, next, allow, kind);
    }
  }

  lemma UnguardedTryAdds(g: Ground, s: Session, next: Session, allow: bool, kind: Kind)
    requires Open(g, s.script).Opened? && InCall(s) && kind in s.slots && s.slots[kind].binding.Kind() == kind
    requires s.phase == Connecting(kind) && (kind != Db || !g.guarded)
    requires next.script == s.script && next.read == s.read && next.phase == Operating(kind)
    requires Settling(ViewOf(g, s.script, allow), kind, s.script.exchanges[..s.read - 1], Current(s))
          == [Attempted(s.slots[kind].binding, Current(s).connect)]
    ensures SoFar(g, next, allow) == SoFar(g, s, allow) + [Attempted(s.slots[kind].binding, Current(s).connect)]
  {
    assert SoFar(g, s, allow) == [];
  }

  lemma RecordingConducts(cfg: Config, s: Session, w: World, now: nat, allow: bool)
    requires OnScript(cfg.Ground(), s, allow) && Conducts(cfg.Ground(), s, allow)
    requires s.phase.Recording?
    ensures Conducts(cfg.Ground(), Advance(cfg, s, w, now), allow)
  {
    var g := cfg.Ground();
    WiredKinds(Open(g, s.script).configs, s.slots);
    TellConducts(g, s, StepRecording(s, s.phase.outcome), allow, s.slots[Db].binding, s.phase.outcome);
  }

  lemma TellConducts(g: Ground, s: Session, next: Session, allow: bool, binding: Binding, outcome: Result<nat, Fault>)
    requires Conducts(g, s, allow) && s.phase == Recording(outcome) && Midway(g, s, allow) && allow
    requires outcome == Current(s).connect
    requires Db in s.slots && s.slots[Db] == Slot(binding, Vacant) && binding.DbBinding?
    requires next.script == s.script && next.read == s.read && next.written == s.written
    requires next.phase == Operating(Db)
    requires next.log == s.log + [Recorded(Target(binding.dbConfig), outcome.Ok?)]
    ensures Conducts(g, next, allow)
  {
    VacantSettles(ViewOf(g, s.script, allow), s.slots, s.script.exchanges[..s.read - 1], Current(s), Db, allow);
    CallGoesOn(g, s, next, allow, Recorded(Target(binding.dbConfig), outcome.Ok?));
  }

  lemma OperatingConducts(cfg: Config, s: Session, w: World, now: nat, allow: bool)
    requires OnScript(cfg.Ground(), s, allow) && Conducts(cfg.Ground(), s, allow)
    requires s.phase.Operating?
    ensures Conducts(cfg.Ground(), Advance(cfg, s, w, now), allow)
  {
    var g, kind := cfg.Ground(), s.phase.kind;
    OperateDrives(ViewOf(g, s.script, allow), s.slots, s.script.exchanges[..s.read - 1], Current(s), kind);
    DriveConducts(g, s, StepOperating(cfg, s, kind), allow, kind);
  }

  lemma DriveConducts(g: Ground, s: Session, next: Session, allow: bool, kind: Kind)
    requires Conducts(g, s, allow) && s.phase == Operating(kind) && Calls(Current(s), kind)
    requires next.script == s.script && next.read == s.read && next.written == s.written && next.phase.Writing?
    requires next.log == s.log + Driving(ViewOf(g, s.script, allow), s.script.exchanges[..s.read - 1], Current(s))
    ensures Conducts(g, next, allow)
  {
    var v, past, x := ViewOf(g, s.script, allow), s.script.exchanges[..s.read - 1], Current(s);
    Associative(Base(g, s.script, allow, s.read - 1), Settling(v, kind, past, x), Driving(v, past, x));
    CallEnds(g, s, next, allow);
  }

  /** Every step keeps the log what the history prescribes, under any breaker answer that the step
      leaves possible. */
  lemma StepConducts(cfg: Config, s: Session, w: World, now: nat, allow: bool)
    requires OnScript(cfg.Ground(), s, allow) && Conducts(cfg.Ground(), s, allow)
    requires Possible(Advance(cfg, s, w, now), allow)
    ensures Conducts(cfg.Ground(), Advance(cfg, s, w, now), allow)
  {
    match s.phase
    case Start => OpeningConducts(cfg, s, w, now, allow);
    case Opening(_) => OpeningConducts(cfg, s, w, now, allow);
    case Refusing(_) => OpeningConducts(cfg, s, w, now, allow);
    case Trusted(_) => TrustedConducts(cfg, s, w, now, allow);
    case Writing(_, _) => WritingConducts(cfg, s, w, now, allow);
    case Idle => IdleConducts(cfg, s, w, now, allow);
    case Serving => ServingConducts(cfg, s, w, now, allow);
    case Connecting(_) => ConnectingConducts(cfg, s, w, now, allow);
    case Recording(_) => RecordingConducts(cfg, s, w, now, allow);
    case Operating(_) => OperatingConducts(cfg, s, w, now, allow);
    case Done =>
  }

  // -- As a whole ---------------------------------------------------------------

  /** What a call has done so far is a beginning of what it will do. */
  lemma SoFarIsDue(g: Ground, s: Session, allow: bool)
    requires OnScript(g, s, allow) && CallConduct(g, s, allow)
    requires s.phase.Recording? ==> g.guarded
    ensures SoFar(g, s, allow) <= DeedsOf(ViewOf(g, s.script, allow), s.script.exchanges[..s.read - 1], Current(s))
  {
    var v, past, x := ViewOf(g, s.script, allow), s.script.exchanges[..s.read - 1], Current(s);
    if s.phase.Connecting? {
      VacantSettles(v, s.slots, past, x, s.phase.kind, allow);
    } else if s.phase.Recording? {
      VacantSettles(v, s.slots, past, x, Db, allow);
    }
  }

  lemma BasesGrow(g: Ground, script: Script, allow: bool, i: nat)
    requires Open(g, script).Opened? && i <= |script.exchanges|
    ensures Base(g, script, allow, i) <= Base(g, script, allow, |script.exchanges|)
  {
    DoingsGrow(ViewOf(g, script, allow), script.exchanges, i, |script.exchanges|);
  }

  lemma CallIsPrescribed(g: Ground, s: Session, allow: bool)
    requires OnScript(g, s, allow) && CallConduct(g, s, allow)
    requires s.phase.Recording? ==> g.guarded
    ensures s.log <= Base(g, s.script, allow, |s.script.exchanges|)
  {
    var v, past, x := ViewOf(g, s.script, allow), s.script.exchanges[..s.read - 1], Current(s);
    SoFarIsDue(g, s, allow);
    BaseGrows(g, s.script, allow, s.read - 1);
    BasesGrow(g, s.script, allow, s.read);
    Within(Base(g, s.script, allow, s.read - 1), SoFar(g, s, allow), DeedsOf(v, past, x),
           Base(g, s.script, allow, |s.script.exchanges|));
  }

  lemma Within(base: seq<Effect>, part: seq<Effect>, whole: seq<Effect>, all: seq<Effect>)
    requires part <= whole && base + whole <= all
    ensures base + part <= all
  {
  }

  lemma RestIsPrescribed(g: Ground, s: Session, allow: bool)
    requires RestConduct(g, s, allow)
    ensures s.log <= Prescribed(g, s.script, allow, TotalTold(s.log), |s.script.exchanges|)
    ensures Open(g, s.script).Opened? ==> s.log == Prescribed(g, s.script, allow, TotalTold(s.log), s.read)
    ensures !Open(g, s.script).Opened? ==>
      s.log == Prescribed(g, s.script, allow, TotalTold(s.log), Served(s.script))
  {
    if Open(g, s.script).Opened? {
      BasesGrow(g, s.script, allow, s.read);
      OpenPrescribes(g, s.script, allow, TotalTold(s.log), s.read);
      OpenPrescribes(g, s.script, allow, TotalTold(s.log), |s.script.exchanges|);
    }
  }

  ghost predicate AtRest(phase: Phase) {
    phase.Writing? || phase.Idle? || phase.Done?
  }

  /** Whatever a session has done is a beginning of what is prescribed for it, and at the end it is all
      of that. */
  lemma ConductIsPrescribed(g: Ground, s: Session, allow: bool)
    requires OnScript(g, s, allow) && Conducts(g, s, allow)
    ensures s.log <= Prescribed(g, s.script, allow, TotalTold(s.log), |s.script.exchanges|)
    ensures s.phase.Done? ==> s.log == Prescribed(g, s.script, allow, TotalTold(s.log), Served(s.script))
  {
    if AtRest(s.phase) {
      RestIsPrescribed(g, s, allow);
    } else if IsCall(s.phase) {
      CallIsPrescribed(g, s, allow);
      OpenPrescribes(g, s.script, allow, TotalTold(s.log), |s.script.exchanges|);
    } else {
      BeginningIsPrescribed(g, s, allow);
    }
  }

  ghost predicate IsCall(phase: Phase) {
    phase.Serving? || phase.Connecting? || phase.Recording? || phase.Operating?
  }

  lemma BeginningIsPrescribed(g: Ground, s: Session, allow: bool)
    requires OnScript(g, s, allow) && Conducts(g, s, allow)
    requires !AtRest(s.phase) && !IsCall(s.phase)
    ensures s.log <= Prescribed(g, s.script, allow, TotalTold(s.log), |s.script.exchanges|)
  {
  }
}
