/** What every step of a session keeps about its effects: authentication comes first, each backend is
    connected at most once and keeps its client, and the breaker is asked, obeyed and told exactly
    once. */
module Stories {
  import opened Wire
  import opened Resources
  import opened ClientAuth
  import opened SessionSpec
  import opened Ledger
  import opened Backends
  import opened Sessions

  /** What an effect may be about. */
  datatype Topic =
    | AttemptOf(kind: Kind)       // connect attempts of a kind
    | DispatchOf(kind: Kind)      // operations handed to a kind's driver
    | BreakerTalk                 // questions, guarded attempts and records
    | Rejection                   // counted rejections
    | AllowFor(target: string)    // positive answers of the breaker
    | AttemptOn(target: string)   // connect attempts on a db target
    | RecordFor(target: string)   // records told to the breaker

  predicate About(e: Effect, topic: Topic) {
    match topic
    case AttemptOf(kind) => e.Attempted? && e.binding.Kind() == kind
    case DispatchOf(kind) => e.Dispatched? && e.binding.Kind() == kind
    case BreakerTalk => e.Asked? || e.Recorded? || (e.Attempted? && e.binding.DbBinding?)
    case Rejection => e.Rejected?
    case AllowFor(target) => e == Asked(target, true)
    case AttemptOn(target) => e.Attempted? && e.binding.DbBinding? && Target(e.binding.dbConfig) == target
    case RecordFor(target) => e.Recorded? && e.target == target
  }

  function Filter(log: seq<Effect>, topic: Topic): seq<Effect> {
    if log == [] then []
    else Filter(log[..|log| - 1], topic) + (if About(log[|log| - 1], topic) then [log[|log| - 1]] else [])
  }

  lemma FilterSnoc(log: seq<Effect>, e: Effect, topic: Topic)
    ensures Filter(log + [e], topic) == Filter(log, topic) + (if About(e, topic) then [e] else [])
  {
    assert (log + [e])[..|log|] == log;
  }

  // -- The shape of a state -----------------------------------------------------

  ghost predicate IsOpen(s: Session) {
    || s.phase.Idle? || s.phase.Serving? || s.phase.Connecting? || s.phase.Recording? || s.phase.Operating?
    || (s.phase.Writing? && s.phase.more)
  }

  /** The little that the effects depend on. */
  ghost predicate Shape(s: Session) {
    && (forall kind :: kind in s.slots ==> s.slots[kind].binding.Kind() == kind)
    && (Amq in s.slots ==> s.slots[Amq].cell.Live?)
    && match s.phase
       case Serving => InCall(s)
       case Connecting(kind) => InCall(s) && kind in s.slots && s.slots[kind].cell.Vacant?
       case Recording(_) => Db in s.slots && s.slots[Db].cell.Vacant?
       case Operating(kind) => InCall(s) && kind in s.slots && !s.slots[kind].cell.Vacant?
       case Opening(init) => s.script.first == Some(InitFrame(init)) && s.slots == map[]
       case Trusted(_) => s.slots == map[]
       case Refusing(_) => s.slots == map[]
       case Start => s.slots == map[]
       case _ => true
  }

  lemma ScriptGivesShape(g: Ground, s: Session, allow: bool)
    requires OnScript(g, s, allow)
    requires !s.phase.Done?
    ensures Shape(s)
    ensures IsOpen(s) ==> Accepted(s.script)
  {
    if IsOpen(s) {
      OpenIsWired(g, s, allow);
      WiredKinds(Open(g, s.script).configs, s.slots);
      if s.phase.Operating? {
        SettledIsTried(g, s, allow);
      }
    } else {
      assert s.slots == map[];
    }
  }

  lemma OpenIsWired(g: Ground, s: Session, allow: bool)
    requires OnScript(g, s, allow) && IsOpen(s)
    ensures Accepted(s.script) && Open(g, s.script).Opened?
    ensures Wired(Open(g, s.script).configs, s.slots)
    ensures Amq in s.slots ==> s.slots[Amq].cell.Live?
  {
  }

  lemma SettledIsTried(g: Ground, s: Session, allow: bool)
    requires OnScript(g, s, allow) && s.phase.Operating?
    ensures InCall(s) && s.phase.kind in s.slots && !s.slots[s.phase.kind].cell.Vacant?
  {
    FirstCallSnoc(s.phase.kind, s.script.exchanges[..s.read - 1], Current(s));
  }

  // -- Authentication -----------------------------------------------------------

  ghost predicate Accepted(script: Script) {
    && script.first.Some? && script.first.value.InitFrame?
    && Authenticate(script.authenticator, script.first.value.init.token, script.verdict).Ok?
  }

  ghost predicate AfterTrust(log: seq<Effect>) {
    && |log| >= 2 && log[0] == Authenticated(true) && log[1] == LookedUp
    && (forall i :: 2 <= i < |log| ==> !log[i].Authenticated? && !log[i].Rejected? && !log[i].LookedUp?)
  }

  /** A session has done nothing, or was judged and counted once and did nothing else, or was accepted
      before it touched the table and everything that follows. */
  ghost predicate AuthStory(s: Session) {
    match s.phase
    case Start => s.log == []
    case Opening(_) => s.log == []
    case Refusing(_) => s.log == [Authenticated(false)] && !Accepted(s.script)
    case Trusted(_) => s.log == [Authenticated(true)] && Accepted(s.script)
    case _ =>
      || s.log == []
      || (|s.log| == 2 && s.log[0] == Authenticated(false) && s.log[1].Rejected? && !Accepted(s.script))
      || (AfterTrust(s.log) && Accepted(s.script))
  }

  lemma TrustLasts(log: seq<Effect>, e: Effect)
    requires AfterTrust(log)
    requires !e.Authenticated? && !e.Rejected? && !e.LookedUp?
    ensures AfterTrust(log + [e])
  {
  }

  lemma OpeningKeepsAuthStory(cfg: Config, s: Session, w: World, now: nat)
    requires Shape(s) && AuthStory(s)
    requires s.phase.Start? || s.phase.Opening? || s.phase.Refusing? || s.phase.Trusted?
    ensures AuthStory(Advance(cfg, s, w, now))
    ensures IsOpen(Advance(cfg, s, w, now)) ==> AfterTrust(Advance(cfg, s, w, now).log)
  {
    var next := Advance(cfg, s, w, now);
    match s.phase
    case Start => assert next.log == [];
    case Opening(init) => assert |next.log| == 1;
    case Refusing(reject) => assert |next.log| == 2;
    case Trusted(init) =>
      assert next.log[0] == Authenticated(true) && next.log[1] == LookedUp;
      assert AfterTrust(next.log);
  }

  lemma CallKeepsAuthStory(cfg: Config, s: Session, w: World, now: nat)
    requires Shape(s) && AfterTrust(s.log) && Accepted(s.script)
    requires s.phase.Serving? || s.phase.Connecting? || s.phase.Recording? || s.phase.Operating?
    ensures AuthStory(Advance(cfg, s, w, now)) && AfterTrust(Advance(cfg, s, w, now).log)
  {
    var next := Advance(cfg, s, w, now);
    StepAppends(cfg, s, w, now);
    if next.log != s.log {
      TrustLasts(s.log, next.log[|s.log|]);
    }
  }

  lemma StepKeepsAuthStory(cfg: Config, s: Session, w: World, now: nat)
    requires Shape(s) && AuthStory(s)
    requires IsOpen(s) ==> AfterTrust(s.log) && Accepted(s.script)
    ensures AuthStory(Advance(cfg, s, w, now))
    ensures IsOpen(Advance(cfg, s, w, now)) ==> AfterTrust(Advance(cfg, s, w, now).log)
  {
    match s.phase
    case Start => OpeningKeepsAuthStory(cfg, s, w, now);
    case Opening(_) => OpeningKeepsAuthStory(cfg, s, w, now);
    case Refusing(_) => OpeningKeepsAuthStory(cfg, s, w, now);
    case Trusted(_) => OpeningKeepsAuthStory(cfg, s, w, now);
    case Writing(_, _) =>
    case Idle =>
    case Done =>
    case Serving => CallKeepsAuthStory(cfg, s, w, now);
    case Connecting(_) => CallKeepsAuthStory(cfg, s, w, now);
    case Recording(_) => CallKeepsAuthStory(cfg, s, w, now);
    case Operating(_) => CallKeepsAuthStory(cfg, s, w, now);
  }

  /** In a call, a step has at most one effect, and never one of the opening. */
  lemma StepAppends(cfg: Config, s: Session, w: World, now: nat)
    requires Shape(s)
    requires s.phase.Serving? || s.phase.Connecting? || s.phase.Recording? || s.phase.Operating?
    ensures var next := Advance(cfg, s, w, now);
      && next.script == s.script
      && (IsOpen(next) || next == s)
    ensures var next := Advance(cfg, s, w, now);
      next.log != s.log ==>
        && |next.log| == |s.log| + 1
        && next.log == s.log + [next.log[|s.log|]]
        && var e := next.log[|s.log|];
        !e.Authenticated? && !e.Rejected? && !e.LookedUp?
  {
  }

  // -- Connections --------------------------------------------------------------

  /** At most one connect attempt per kind, ever. Its failure is what the cell holds and then nothing
      is dispatched; its success is the client that every dispatch of the kind goes to, and there is
      one metric per dispatch. `pending` is an attempt whose record is still due. */
  ghost predicate Tale(kind: Kind, slot: Option<Slot>, pending: Option<Result<nat, Fault>>, refused: bool,
                       attempts: seq<Effect>, dispatches: seq<Effect>)
  {
    if slot.None? then attempts == [] && dispatches == []
    else
      var binding := slot.value.binding;
      && binding.Kind() == kind
      && match slot.value.cell
         case Vacant =>
           dispatches == [] && attempts == if pending.Some? then [Attempted(binding, pending.value)] else []
         case Failed(error) =>
           && dispatches == []
           && if refused then attempts == [] && error == CircuitOpenError() else AttemptFailed(kind, binding, error, attempts)
         case Live(client, metrics) =>
           && attempts == (if kind == Amq then [] else [Attempted(binding, Ok(client))])
           && |dispatches| == |metrics|
           && (forall i :: 0 <= i < |dispatches| ==>
                 dispatches[i].Dispatched? && dispatches[i].client == client && dispatches[i].binding == binding)
  }

  ghost predicate AttemptFailed(kind: Kind, binding: Binding, error: EgressError, attempts: seq<Effect>) {
    && |attempts| == 1
    && attempts[0].Attempted? && attempts[0].binding == binding
    && attempts[0].outcome.Err? && error == ConnectError(kind, attempts[0].outcome.error)
  }

  ghost function SlotOf(s: Session, kind: Kind): Option<Slot> {
    if kind in s.slots then Some(s.slots[kind]) else None
  }

  ghost function PendingOf(s: Session, kind: Kind): Option<Result<nat, Fault>> {
    if kind == Db && s.phase.Recording? then Some(s.phase.outcome) else None
  }

  ghost predicate RefusedOf(s: Session, kind: Kind) {
    kind == Db && s.asked == Some(false)
  }

  ghost predicate KindStory(s: Session, kind: Kind) {
    Tale(kind, SlotOf(s, kind), PendingOf(s, kind), RefusedOf(s, kind),
         Filter(s.log, AttemptOf(kind)), Filter(s.log, DispatchOf(kind)))
  }

  lemma Unheard(s: Session, e: Effect, kind: Kind)
    ensures !About(e, AttemptOf(kind)) ==> Filter(s.log + [e], AttemptOf(kind)) == Filter(s.log, AttemptOf(kind))
    ensures !About(e, DispatchOf(kind)) ==> Filter(s.log + [e], DispatchOf(kind)) == Filter(s.log, DispatchOf(kind))
    ensures About(e, AttemptOf(kind)) ==> Filter(s.log + [e], AttemptOf(kind)) == Filter(s.log, AttemptOf(kind)) + [e]
    ensures About(e, DispatchOf(kind)) ==> Filter(s.log + [e], DispatchOf(kind)) == Filter(s.log, DispatchOf(kind)) + [e]
  {
    FilterSnoc(s.log, e, AttemptOf(kind));
    FilterSnoc(s.log, e, DispatchOf(kind));
  }

  /** What routing changes: nothing, or the breaker was asked about the vacant db cell and obeyed. */
  ghost predicate RouteMove(guarded: bool, s: Session, next: Session) {
    && !next.phase.Recording?
    && (StayMove(guarded, s, next) || (guarded && AskMove(s, next)))
  }

  ghost predicate StayMove(guarded: bool, s: Session, next: Session) {
    && next.log == s.log && next.slots == s.slots && next.asked == s.asked
    && (guarded ==> next.phase != Connecting(Db))
  }

  ghost predicate AskMove(s: Session, next: Session) {
    && Db in s.slots && s.slots[Db].cell.Vacant? && s.slots[Db].binding.DbBinding?
    && next.asked.Some?
    && next.log == s.log + [Asked(Target(s.slots[Db].binding.dbConfig), next.asked.value)]
    && (if next.asked.value then next.slots == s.slots && next.phase == Connecting(Db)
        else next.slots == s.slots[Db := s.slots[Db].(cell := Failed(CircuitOpenError()))])
  }

  lemma ServingRoutes(cfg: Config, s: Session, w: World, now: nat)
    requires InCall(s) && (forall kind :: kind in s.slots ==> s.slots[kind].binding.Kind() == kind)
    ensures RouteMove(cfg.policy.Some?, s, StepServing(cfg, s, w, now))
  {
  }

  lemma RoutingKeepsKindStory(guarded: bool, s: Session, next: Session, kind: Kind)
    requires KindStory(s, kind) && s.phase.Serving? && RouteMove(guarded, s, next)
    requires s.asked.Some? ==> Db in s.slots && !s.slots[Db].cell.Vacant?
    ensures KindStory(next, kind)
  {
    if StayMove(guarded, s, next) {
      SameStory(s, next, kind);
    } else if kind == Db {
      AskingKeepsDbStory(s, next);
    } else {
      Unheard(s, Asked(Target(s.slots[Db].binding.dbConfig), next.asked.value), kind);
      SameStory(s, next, kind);
    }
  }

  /** The db cell after the question: still vacant, or failed without an attempt. */
  lemma AskingKeepsDbStory(s: Session, next: Session)
    requires KindStory(s, Db) && s.phase.Serving? && s.asked.None? && AskMove(s, next) && !next.phase.Recording?
    ensures KindStory(next, Db)
  {
    var binding := s.slots[Db].binding;
    Unheard(s, Asked(Target(binding.dbConfig), next.asked.value), Db);
    assert SlotOf(s, Db) == Some(Slot(binding, Vacant));
    assert Filter(next.log, AttemptOf(Db)) == [] && Filter(next.log, DispatchOf(Db)) == [];
    if next.asked.value {
      assert Tale(Db, Some(Slot(binding, Vacant)), None, false, [], []);
    } else {
      assert Tale(Db, Some(Slot(binding, Failed(CircuitOpenError()))), None, true, [], []);
    }
  }

  /** The attempt fills the cell with its outcome, or leaves it pending until it is recorded. */
  lemma AttemptTale(kind: Kind, binding: Binding, outcome: Result<nat, Fault>)
    requires binding.Kind() == kind && kind != Amq
    ensures Tale(kind, Some(Slot(binding, CellOf(Attempt(kind, outcome)))), None, false, [Attempted(binding, outcome)], [])
    ensures Tale(kind, Some(Slot(binding, Vacant)), Some(outcome), false, [Attempted(binding, outcome)], [])
  {
  }

  /** What a connect step changes. */
  lemma ConnectingParts(cfg: Config, s: Session, kind: Kind)
    requires InCall(s) && kind in s.slots && s.phase == Connecting(kind)
    ensures var next, binding, outcome := StepConnecting(cfg, s, kind), s.slots[kind].binding, Current(s).connect;
      && next.log == s.log + [Attempted(binding, outcome)]
      && next.asked == s.asked
      && (forall other :: other != kind ==> SlotOf(next, other) == SlotOf(s, other))
      && (if binding.DbBinding? && cfg.policy.Some?
          then SlotOf(next, kind) == SlotOf(s, kind) && next.phase == Recording(outcome)
          else SlotOf(next, kind) == Some(Slot(binding, CellOf(Attempt(kind, outcome)))) && next.phase == Operating(kind))
  {
  }

  lemma SameStory(s: Session, next: Session, kind: Kind)
    requires KindStory(s, kind)
    requires SlotOf(next, kind) == SlotOf(s, kind)
    requires PendingOf(next, kind) == PendingOf(s, kind)
    requires RefusedOf(next, kind) == RefusedOf(s, kind)
    requires Filter(next.log, AttemptOf(kind)) == Filter(s.log, AttemptOf(kind))
    requires Filter(next.log, DispatchOf(kind)) == Filter(s.log, DispatchOf(kind))
    ensures KindStory(next, kind)
  {
  }

  lemma ConnectingKeepsItsStory(cfg: Config, s: Session, kind: Kind)
    requires InCall(s) && s.phase == Connecting(kind) && KindStory(s, kind) && kind != Amq
    requires kind in s.slots && s.slots[kind].cell.Vacant?
    requires kind == Db ==> s.asked != Some(false)
    ensures KindStory(StepConnecting(cfg, s, kind), kind)
  {
    var binding, outcome := s.slots[kind].binding, Current(s).connect;
    ConnectingParts(cfg, s, kind);
    Unheard(s, Attempted(binding, outcome), kind);
    AttemptTale(kind, binding, outcome);
    assert Filter(s.log, AttemptOf(kind)) == [] && Filter(s.log, DispatchOf(kind)) == [];
    assert SlotOf(s, kind) == Some(Slot(binding, Vacant));
  }

  lemma ConnectingKeepsKindStory(cfg: Config, s: Session, kind: Kind)
    requires Shape(s) && KindStory(s, kind) && s.phase.Connecting?
    requires s.phase.kind == Db ==> s.asked != Some(false)
    ensures KindStory(StepConnecting(cfg, s, s.phase.kind), kind)
  {
    if kind == s.phase.kind {
      ConnectingKeepsItsStory(cfg, s, kind);
    } else {
      var e := Attempted(s.slots[s.phase.kind].binding, Current(s).connect);
      ConnectingParts(cfg, s, s.phase.kind);
      Unheard(s, e, kind);
      SameStory(s, StepConnecting(cfg, s, s.phase.kind), kind);
    }
  }

  /** What recording changes: the breaker is told and the cell holds the outcome. */
  ghost predicate RecordMove(s: Session, next: Session, binding: Binding, outcome: Result<nat, Fault>) {
    && binding.DbBinding? && SlotOf(s, Db) == Some(Slot(binding, Vacant))
    && next.phase == Operating(Db) && next.asked == s.asked
    && next.log == s.log + [Recorded(Target(binding.dbConfig), outcome.Ok?)]
    && SlotOf(next, Db) == Some(Slot(binding, CellOf(Attempt(Db, outcome))))
    && (forall other :: other != Db ==> SlotOf(next, other) == SlotOf(s, other))
  }

  lemma RecordingRecords(s: Session, outcome: Result<nat, Fault>)
    requires Db in s.slots && s.slots[Db].cell.Vacant? && s.slots[Db].binding.DbBinding?
    ensures RecordMove(s, StepRecording(s, outcome), s.slots[Db].binding, outcome)
  {
  }

  lemma RecordingKeepsKindStory(s: Session, next: Session, binding: Binding, kind: Kind)
    requires KindStory(s, kind) && s.phase.Recording? && RecordMove(s, next, binding, s.phase.outcome)
    requires s.asked == Some(true)
    ensures KindStory(next, kind)
  {
    Unheard(s, Recorded(Target(binding.dbConfig), s.phase.outcome.Ok?), kind);
    if kind == Db {
      AttemptTale(Db, binding, s.phase.outcome);
    } else {
      SameStory(s, next, kind);
    }
  }

  /** What operating changes: nothing, or one dispatch to the live client and one metric. */
  ghost predicate OperateMove(s: Session, next: Session, kind: Kind) {
    && next.phase.Writing? && next.asked == s.asked && kind in s.slots && s.slots[kind].binding.Kind() == kind
    && (|| (next.log == s.log && next.slots == s.slots)
        || (&& s.slots[kind].cell.Live?
            && |next.log| == |s.log| + 1 && next.log == s.log + [next.log[|s.log|]]
            && next.log[|s.log|].Dispatched? && next.log[|s.log|].binding == s.slots[kind].binding
            && next.log[|s.log|].client == s.slots[kind].cell.client
            && next.slots.Keys == s.slots.Keys
            && (forall other :: other in s.slots && other != kind ==> next.slots[other] == s.slots[other])
            && next.slots[kind].binding == s.slots[kind].binding
            && next.slots[kind].cell.Live? && next.slots[kind].cell.client == s.slots[kind].cell.client
            && |next.slots[kind].cell.metrics| == |s.slots[kind].cell.metrics| + 1))
  }

  lemma OperatingOperates(cfg: Config, s: Session, kind: Kind)
    requires InCall(s) && kind in s.slots && s.slots[kind].binding.Kind() == kind
    ensures OperateMove(s, StepOperating(cfg, s, kind), kind)
  {
    var done := Operate(s.slots[kind], cfg.codec, kind, Current(s));
    if !done.reached {
      assert s.slots[kind := done.slot] == s.slots;
    }
  }

  lemma OperatingKeepsKindStory(s: Session, next: Session, current: Kind, kind: Kind)
    requires KindStory(s, kind) && s.phase.Operating? && OperateMove(s, next, current)
    ensures KindStory(next, kind)
  {
    if next.log == s.log {
      SameStory(s, next, kind);
    } else {
      Unheard(s, next.log[|s.log|], kind);
      if kind != current {
        SameStory(s, next, kind);
      }
    }
  }

  lemma FreshSlot(configs: Resolved, kind: Kind)
    requires kind in Fresh(configs)
    ensures var slot := Fresh(configs)[kind];
      slot.binding.Kind() == kind && slot.cell == if kind == Amq then Live(0, []) else Vacant
  {
  }

  ghost predicate IsQuiet(phase: Phase) {
    phase.Start? || phase.Opening? || phase.Refusing? || phase.Writing? || phase.Idle? || phase.Done?
  }

  ghost function QuietEffects(s: Session, w: World): (effects: seq<Effect>)
    ensures |effects| <= 1
    ensures forall i :: 0 <= i < |effects| ==> effects[i].Authenticated? || effects[i].Rejected?
  {
    match s.phase
    case Opening(init) => [Authenticated(Authenticate(s.script.authenticator, init.token, s.script.verdict).Ok?)]
    case Refusing(_) => [Rejected(TotalAfter(w.failures))]
    case _ => []
  }

  ghost predicate QuietMove(s: Session, next: Session, w: World) {
    && next.slots == s.slots && next.asked == s.asked
    && !next.phase.Connecting? && !next.phase.Recording?
    && next.log == s.log + QuietEffects(s, w)
  }

  /** The remaining steps touch neither cells nor drivers nor the breaker. */
  lemma QuietStepsAreQuiet(cfg: Config, s: Session, w: World, now: nat)
    requires IsQuiet(s.phase)
    ensures QuietMove(s, Advance(cfg, s, w, now), w)
  {
  }

  lemma QuietKeepsKindStory(s: Session, next: Session, w: World, kind: Kind)
    requires KindStory(s, kind) && IsQuiet(s.phase) && QuietMove(s, next, w)
    ensures KindStory(next, kind)
  {
    QuietFilters(s, QuietEffects(s, w), kind);
    SameStory(s, next, kind);
  }

  lemma QuietFilters(s: Session, effects: seq<Effect>, kind: Kind)
    requires |effects| <= 1
    requires forall i :: 0 <= i < |effects| ==> effects[i].Authenticated? || effects[i].Rejected?
    ensures Filter(s.log + effects, AttemptOf(kind)) == Filter(s.log, AttemptOf(kind))
    ensures Filter(s.log + effects, DispatchOf(kind)) == Filter(s.log, DispatchOf(kind))
  {
    if effects == [] {
      assert s.log + effects == s.log;
    } else {
      assert effects == [effects[0]];
      Unheard(s, effects[0], kind);
    }
  }

  // -- The breaker --------------------------------------------------------------

  /** With a breaker, the db connect of a session is: nothing yet; asked and refused; or asked and
      allowed, attempted on that very target, and recorded with its true outcome - cut short only
      while the connect is under way. */
  ghost predicate BreakerStory(guarded: bool, s: Session) {
    var story := Filter(s.log, BreakerTalk);
    if !guarded then s.asked.None? && (forall i :: 0 <= i < |story| ==> story[i].Attempted?)
    else if Db !in s.slots then s.asked.None? && story == []
    else
      && s.slots[Db].binding.DbBinding?
      && var binding, target := s.slots[Db].binding, Target(s.slots[Db].binding.dbConfig);
      if s.slots[Db].cell.Vacant? then
        if s.phase == Connecting(Db) then s.asked == Some(true) && story == [Asked(target, true)]
        else if s.phase.Recording? then
          s.asked == Some(true) && story == [Asked(target, true), Attempted(binding, s.phase.outcome)]
        else s.asked.None? && story == []
      else
        && !s.phase.Recording?
        && (|| (s.asked == Some(false) && story == [Asked(target, false)])
            || (s.asked == Some(true) && Settled(story, binding, target)))
  }

  ghost predicate Settled(story: seq<Effect>, binding: Binding, target: string) {
    && |story| == 3
    && story[0] == Asked(target, true)
    && story[1].Attempted? && story[1].binding == binding
    && story[2] == Recorded(target, story[1].outcome.Ok?)
  }

  lemma BreakerStoryFrame(guarded: bool, s: Session, next: Session)
    requires BreakerStory(guarded, s)
    requires next.log == s.log || (|next.log| == |s.log| + 1 && next.log[..|s.log|] == s.log)
    requires |next.log| == |s.log| + 1 ==> !About(next.log[|s.log|], BreakerTalk)
    requires next.asked == s.asked
    requires Db in next.slots <==> Db in s.slots
    requires Db in s.slots ==>
      && next.slots[Db].binding == s.slots[Db].binding
      && (next.slots[Db].cell.Vacant? <==> s.slots[Db].cell.Vacant?)
    requires s.phase != Connecting(Db) && !s.phase.Recording?
    requires next.phase != Connecting(Db) && !next.phase.Recording?
    ensures BreakerStory(guarded, next)
  {
    if next.log != s.log {
      assert next.log == s.log + [next.log[|s.log|]];
      FilterSnoc(s.log, next.log[|s.log|], BreakerTalk);
    }
  }

  lemma RoutingKeepsBreakerStory(guarded: bool, s: Session, next: Session)
    requires BreakerStory(guarded, s) && s.phase.Serving? && RouteMove(guarded, s, next)
    ensures BreakerStory(guarded, next)
  {
    if !StayMove(guarded, s, next) {
      var e := Asked(Target(s.slots[Db].binding.dbConfig), next.asked.value);
      FilterSnoc(s.log, e, BreakerTalk);
      assert Filter(next.log, BreakerTalk) == [e];
    } else if guarded {
      BreakerStoryFrame(guarded, s, next);
    }
  }

  lemma ConnectingKeepsBreakerStory(cfg: Config, s: Session, w: World, now: nat)
    requires Shape(s) && BreakerStory(cfg.policy.Some?, s) && s.phase.Connecting?
    ensures BreakerStory(cfg.policy.Some?, Advance(cfg, s, w, now))
  {
    var next, kind := Advance(cfg, s, w, now), s.phase.kind;
    var e := Attempted(s.slots[kind].binding, Current(s).connect);
    assert next.log == s.log + [e];
    FilterSnoc(s.log, e, BreakerTalk);
    if kind != Db {
      BreakerStoryFrame(cfg.policy.Some?, s, next);
    }
  }

  lemma RecordingKeepsBreakerStory(s: Session, next: Session, binding: Binding)
    requires BreakerStory(true, s) && s.phase.Recording? && RecordMove(s, next, binding, s.phase.outcome)
    ensures BreakerStory(true, next)
  {
    var target, outcome := Target(binding.dbConfig), s.phase.outcome;
    FilterSnoc(s.log, Recorded(target, outcome.Ok?), BreakerTalk);
    assert Filter(next.log, BreakerTalk)
        == [Asked(target, true), Attempted(binding, outcome), Recorded(target, outcome.Ok?)];
    assert Settled(Filter(next.log, BreakerTalk), binding, target);
  }

  lemma QuietKeepsBreakerStory(guarded: bool, s: Session, next: Session, w: World)
    requires BreakerStory(guarded, s) && IsQuiet(s.phase) && QuietMove(s, next, w)
    ensures BreakerStory(guarded, next)
  {
    var effects := QuietEffects(s, w);
    if effects != [] {
      assert next.log[|s.log|] == effects[0];
    }
    BreakerStoryFrame(guarded, s, next);
  }

  /** Looking up and building: a vacant cell per wired kind, and nothing asked of anyone. */
  ghost predicate BuildMove(s: Session, next: Session) {
    && next.asked == s.asked && next.phase.Writing?
    && (next.log == s.log + [LookedUp] || next.log == s.log + [LookedUp] + [Built])
    && (forall kind :: kind in next.slots ==>
          && next.slots[kind].binding.Kind() == kind
          && next.slots[kind].cell == if kind == Amq then Live(0, []) else Vacant)
  }

  lemma TrustedStepsBuild(cfg: Config, s: Session, init: Init)
    requires s.slots == map[]
    ensures BuildMove(s, StepTrusted(cfg, s, init))
  {
    var next := StepTrusted(cfg, s, init);
    forall kind | kind in next.slots
      ensures next.slots[kind].binding.Kind() == kind
      ensures next.slots[kind].cell == if kind == Amq then Live(0, []) else Vacant
    {
      FreshSlot(Clamp(Resolve(cfg.table, init).value, cfg.ceilingMs), kind);
    }
  }

  lemma BuildKeepsKindStory(s: Session, next: Session, kind: Kind)
    requires s.slots == map[] && KindStory(s, kind) && s.phase.Trusted? && BuildMove(s, next)
    ensures KindStory(next, kind)
  {
    Unheard(s, LookedUp, kind);
    Unheard(Did(s, LookedUp), Built, kind);
  }

  lemma BuildTellsNothing(s: Session, next: Session)
    requires BuildMove(s, next)
    ensures Filter(next.log, BreakerTalk) == Filter(s.log, BreakerTalk)
  {
    FilterSnoc(s.log, LookedUp, BreakerTalk);
    if next.log != s.log + [LookedUp] {
      FilterSnoc(s.log + [LookedUp], Built, BreakerTalk);
    }
  }

  lemma BuildKeepsBreakerStory(guarded: bool, s: Session, next: Session)
    requires s.slots == map[] && BreakerStory(guarded, s) && s.phase.Trusted? && BuildMove(s, next)
    ensures BreakerStory(guarded, next)
  {
    BuildTellsNothing(s, next);
    if guarded && Db in next.slots {
      assert next.slots[Db].cell.Vacant? && next.slots[Db].binding.DbBinding?;
      assert !next.phase.Connecting?;
    }
  }

  lemma OperatingKeepsBreakerStory(guarded: bool, s: Session, next: Session, kind: Kind)
    requires BreakerStory(guarded, s) && s.phase.Operating? && OperateMove(s, next, kind)
    ensures BreakerStory(guarded, next)
  {
    BreakerStoryFrame(guarded, s, next);
  }

  // -- All of it ----------------------------------------------------------------

  ghost predicate Story(guarded: bool, s: Session) {
    && AuthStory(s)
    && (IsOpen(s) ==> AfterTrust(s.log))
    && (forall kind :: KindStory(s, kind))
    && BreakerStory(guarded, s)
    && (s.phase.Recording? ==> guarded)
  }

  lemma NewHasStory(guarded: bool, script: Script)
    ensures Story(guarded, NewSession(script))
  {
  }

  lemma ConnectingIsAllowed(guarded: bool, s: Session)
    requires Shape(s) && BreakerStory(guarded, s) && s.phase == Connecting(Db)
    ensures s.asked != Some(false)
  {
  }

  lemma StepKeepsKindStory(cfg: Config, s: Session, w: World, now: nat, kind: Kind)
    requires Shape(s) && Story(cfg.policy.Some?, s)
    ensures KindStory(Advance(cfg, s, w, now), kind)
  {
    assert KindStory(s, kind) && KindStory(s, Db);
    match s.phase
    case Trusted(init) =>
      TrustedStepsBuild(cfg, s, init);
      BuildKeepsKindStory(s, Advance(cfg, s, w, now), kind);
    case Serving =>
      ServingRoutes(cfg, s, w, now);
      RoutingKeepsKindStory(cfg.policy.Some?, s, Advance(cfg, s, w, now), kind);
    case Connecting(current) =>
      if current == Db { ConnectingIsAllowed(cfg.policy.Some?, s); }
      ConnectingKeepsKindStory(cfg, s, kind);
    case Recording(outcome) =>
      RecordingRecords(s, outcome);
      RecordingKeepsKindStory(s, Advance(cfg, s, w, now), s.slots[Db].binding, kind);
    case Operating(current) =>
      OperatingOperates(cfg, s, current);
      OperatingKeepsKindStory(s, Advance(cfg, s, w, now), current, kind);
    case _ =>
      QuietStepsAreQuiet(cfg, s, w, now);
      QuietKeepsKindStory(s, Advance(cfg, s, w, now), w, kind);
  }

  lemma StepKeepsBreakerStory(cfg: Config, s: Session, w: World, now: nat)
    requires Shape(s) && Story(cfg.policy.Some?, s)
    ensures BreakerStory(cfg.policy.Some?, Advance(cfg, s, w, now))
  {
    match s.phase
    case Trusted(init) =>
      TrustedStepsBuild(cfg, s, init);
      BuildKeepsBreakerStory(cfg.policy.Some?, s, Advance(cfg, s, w, now));
    case Serving =>
      ServingRoutes(cfg, s, w, now);
      RoutingKeepsBreakerStory(cfg.policy.Some?, s, Advance(cfg, s, w, now));
    case Connecting(_) => ConnectingKeepsBreakerStory(cfg, s, w, now);
    case Recording(outcome) =>
      RecordingRecords(s, outcome);
      RecordingKeepsBreakerStory(s, Advance(cfg, s, w, now), s.slots[Db].binding);
    case Operating(current) =>
      OperatingOperates(cfg, s, current);
      OperatingKeepsBreakerStory(cfg.policy.Some?, s, Advance(cfg, s, w, now), current);
    case _ =>
      QuietStepsAreQuiet(cfg, s, w, now);
      QuietKeepsBreakerStory(cfg.policy.Some?, s, Advance(cfg, s, w, now), w);
  }

  lemma OnlyGuardedRecords(cfg: Config, s: Session, w: World, now: nat)
    requires s.phase.Recording? ==> cfg.policy.Some?
    ensures Advance(cfg, s, w, now).phase.Recording? ==> cfg.policy.Some?
  {
    if IsQuiet(s.phase) {
      QuietStepsAreQuiet(cfg, s, w, now);
    }
  }

  lemma StepKeepsStory(cfg: Config, s: Session, w: World, now: nat)
    requires Shape(s) && Story(cfg.policy.Some?, s)
    requires IsOpen(s) ==> Accepted(s.script)
    ensures Story(cfg.policy.Some?, Advance(cfg, s, w, now))
  {
    StepKeepsAuthStory(cfg, s, w, now);
    forall kind ensures KindStory(Advance(cfg, s, w, now), kind) {
      StepKeepsKindStory(cfg, s, w, now, kind);
    }
    StepKeepsBreakerStory(cfg, s, w, now);
    OnlyGuardedRecords(cfg, s, w, now);
  }

  /** Every step of a session that is on script keeps its story. */
  lemma OnScriptKeepsStory(cfg: Config, s: Session, w: World, now: nat, allow: bool)
    requires OnScript(cfg.Ground(), s, allow) && Story(cfg.policy.Some?, s)
    ensures Story(cfg.policy.Some?, Advance(cfg, s, w, now))
  {
    if s.phase.Done? {
      assert Advance(cfg, s, w, now) == s;
    } else {
      ScriptGivesShape(cfg.Ground(), s, allow);
      StepKeepsStory(cfg, s, w, now);
    }
  }
}
