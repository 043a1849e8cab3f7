/** One session as a machine of atomic steps (crates/fabricd/src/main.rs, `serve`), fine enough that
    steps of different sessions may interleave anywhere: every access to shared state - the failure
    counter, the question to the breaker, the connect attempt, the record - is a step of its own. */
module Sessions {
  import opened Wire
  import opened Resources
  import opened ClientAuth
  import opened SessionSpec
  import opened Ledger
  import opened Backends

  datatype Phase =
    | Start                                        // nothing read yet
    | Opening(init: Init)                          // Init read, token not judged
    | Refusing(reject: Reject)                     // token rejected, not yet counted
    | Trusted(init: Init)                          // token accepted, table not touched
    | Writing(response: Response, more: bool)      // a response is ready
    | Idle                                         // open, waiting for a frame
    | Serving                                      // a call was read
    | Connecting(kind: Kind)                       // a vacant cell is being filled
    | Recording(outcome: Result<nat, Fault>)       // the guarded db connect returned
    | Operating(kind: Kind)                        // the connection is settled
    | Done

  datatype Session = Session(
    script: Script, phase: Phase, read: nat, slots: Slots, asked: Option<bool>,
    written: seq<Response>, log: seq<Effect>)

  function NewSession(script: Script): Session {
    Session(script, Start, 0, map[], None, [], [])
  }

  /** What a step may see of the rest of the daemon. */
  datatype World = World(failures: nat, log: seq<Entry>)

  // -- Steps --------------------------------------------------------------------

  function Did(s: Session, effect: Effect): Session {
    s.(log := s.log + [effect])
  }

  function Goto(s: Session, phase: Phase): Session {
    s.(phase := phase)
  }

  function StepStart(s: Session): Session {
    match s.script.first
    case None => Goto(s, Done)
    case Some(InitFrame(init)) => Goto(s, Opening(init))
    case Some(_) => Goto(s, Writing(ProtocolError("expected Init as the first frame"), false))
  }

  function StepOpening(s: Session, init: Init): Session {
    match Authenticate(s.script.authenticator, init.token, s.script.verdict)
    case Err(reject) => Did(Goto(s, Refusing(reject)), Authenticated(false))
    case Ok(_) => Did(Goto(s, Trusted(init)), Authenticated(true))
  }

  function StepRefusing(s: Session, reject: Reject, w: World): Session {
    Did(Goto(s, Writing(InitError(reject.code, reject.message), false)), Rejected(TotalAfter(w.failures)))
  }

  function StepTrusted(cfg: Config, s: Session, init: Init): Session {
    match Resolve(cfg.table, init)
    case Err(error) => Did(Goto(s, Writing(InitError(error.Code(), error.Message()), false)), LookedUp)
    case Ok(resolved) =>
      Did(Did(Goto(s, Writing(Ack, true)), LookedUp), Built).(slots := Fresh(Clamp(resolved, cfg.ceilingMs)))
  }

  /** A broken writer ends the session. */
  function StepWriting(s: Session, response: Response, more: bool): Session {
    if s.script.writable == Some(|s.written|) then Goto(s, Done)
    else Goto(s, if more then Idle else Done).(written := s.written + [response])
  }

  function StepIdle(s: Session): Session {
    if s.read >= |s.script.exchanges| then Goto(s, Done)
    else
      match s.script.exchanges[s.read].request
      case CallFrame(_) => Goto(s, Serving).(read := s.read + 1)
      case DrainFrame => Goto(s, Writing(Metrics(Drained(s.slots)), true)).(read := s.read + 1)
      case InitFrame(_) =>
        Goto(s, Writing(ProtocolError("Init already received for this session"), true)).(read := s.read + 1)
  }

  /** The exchange a call in progress belongs to. */
  predicate InCall(s: Session) {
    1 <= s.read <= |s.script.exchanges| && s.script.exchanges[s.read - 1].request.CallFrame?
  }

  function Current(s: Session): Exchange
    requires InCall(s)
  {
    s.script.exchanges[s.read - 1]
  }

  function Fill(s: Session, kind: Kind, outcome: Result<nat, EgressError>): Session
    requires kind in s.slots
  {
    Goto(s, Operating(kind)).(slots := s.slots[kind := s.slots[kind].(cell := CellOf(outcome))])
  }

  /** Routes the call; a vacant guarded db cell asks the breaker first. */
  function StepServing(cfg: Config, s: Session, w: World, now: nat): Session
    requires InCall(s)
  {
    var call := Current(s).request.call;
    if KindOf(call.name).None? then Goto(s, Writing(Reply(Err(UnknownName(call.name))), true))
    else
      var kind := KindOf(call.name).value;
      if kind !in s.slots then Goto(s, Writing(Reply(Err(NotConfiguredError(kind))), true))
      else if !s.slots[kind].cell.Vacant? then Goto(s, Operating(kind))
      else if !s.slots[kind].binding.DbBinding? || cfg.policy.None? then Goto(s, Connecting(kind))
      else
        var target := Target(s.slots[kind].binding.dbConfig);
        if cfg.policy.value(w.log, target, now)
        then Did(Goto(s, Connecting(kind)).(asked := Some(true)), Asked(target, true))
        else Did(Fill(s, kind, Err(CircuitOpenError())).(asked := Some(false)), Asked(target, false))
  }

  function StepConnecting(cfg: Config, s: Session, kind: Kind): Session
    requires InCall(s) && kind in s.slots
  {
    var outcome := Current(s).connect;
    var tried := Did(s, Attempted(s.slots[kind].binding, outcome));
    if s.slots[kind].binding.DbBinding? && cfg.policy.Some? then Goto(tried, Recording(outcome))
    else Fill(tried, kind, Attempt(kind, outcome))
  }

  function StepRecording(s: Session, outcome: Result<nat, Fault>): Session
    requires Db in s.slots && s.slots[Db].binding.DbBinding?
  {
    Did(Fill(s, Db, Attempt(Db, outcome)), Recorded(Target(s.slots[Db].binding.dbConfig), outcome.Ok?))
  }

  function StepOperating(cfg: Config, s: Session, kind: Kind): Session
    requires InCall(s) && kind in s.slots
  {
    var done := Operate(s.slots[kind], cfg.codec, kind, Current(s));
    var served := Goto(s, Writing(Reply(done.result), true)).(slots := s.slots[kind := done.slot]);
    if done.reached
    then Did(served, Dispatching(cfg.codec, kind, s.slots[kind].binding, s.slots[kind].cell.client, Current(s).request.call))
    else served
  }

  /** One atomic step of a session. A session that is done, or whose state no run can reach, stays
      as it is. */
  function Advance(cfg: Config, s: Session, w: World, now: nat): (next: Session)
    ensures s.log <= next.log && next.script == s.script
    ensures s.asked.Some? && !s.phase.Serving? ==> next.asked == s.asked
  {
    match s.phase
    case Start => StepStart(s)
    case Opening(init) => StepOpening(s, init)
    case Refusing(reject) => StepRefusing(s, reject, w)
    case Trusted(init) => StepTrusted(cfg, s, init)
    case Writing(response, more) => StepWriting(s, response, more)
    case Idle => StepIdle(s)
    case Serving => if InCall(s) then StepServing(cfg, s, w, now) else s
    case Connecting(kind) => if InCall(s) && kind in s.slots then StepConnecting(cfg, s, kind) else s
    case Recording(outcome) =>
      if Db in s.slots && s.slots[Db].binding.DbBinding? then StepRecording(s, outcome) else s
    case Operating(kind) => if InCall(s) && kind in s.slots then StepOperating(cfg, s, kind) else s
    case Done => s
  }

  // -- What every step keeps: the conversation -----------------------------------

  /** The breaker answer is fixed once it was given. */
  ghost predicate Possible(s: Session, allow: bool) {
    s.asked.Some? ==> s.asked.value == allow
  }

  ghost function ViewOf(g: Ground, script: Script, allow: bool): View
    requires Open(g, script).Opened?
  {
    View(Open(g, script).configs, g.guarded, allow, g.codec)
  }

  ghost predicate Unopened(s: Session) {
    s.read == 0 && s.written == [] && s.slots == map[]
  }

  /** Open, with every request read so far answered or about to be, and the slots in agreement with
      the first `served` exchanges. */
  ghost predicate InSession(g: Ground, s: Session, allow: bool, served: nat, written: nat) {
    && Open(g, s.script).Opened?
    && served <= s.read <= |s.script.exchanges|
    && |s.written| == written
    && Agree(ViewOf(g, s.script, allow), s.slots, s.script.exchanges[..served])
  }

  ghost predicate Midway(g: Ground, s: Session, allow: bool) {
    InCall(s) && InSession(g, s, allow, s.read - 1, s.read)
  }

  ghost predicate PhaseHolds(g: Ground, s: Session, allow: bool) {
    match s.phase
    case Start => Unopened(s)
    case Opening(init) => Unopened(s) && s.script.first == Some(InitFrame(init))
    case Refusing(reject) =>
      && Unopened(s)
      && s.script.first.Some? && s.script.first.value.InitFrame?
      && Authenticate(s.script.authenticator, s.script.first.value.init.token, s.script.verdict) == Err(reject)
    case Trusted(init) =>
      && Unopened(s)
      && s.script.first == Some(InitFrame(init))
      && Authenticate(s.script.authenticator, init.token, s.script.verdict).Ok?
    case Writing(response, more) =>
      && |s.written| < |Trace(g, s.script, allow)|
      && response == Trace(g, s.script, allow)[|s.written|]
      && (if more then InSession(g, s, allow, s.read, s.read)
          else Unopened(s) && Open(g, s.script).Refused?)
    case Idle => InSession(g, s, allow, s.read, s.read + 1)
    case Serving => Midway(g, s, allow)
    case Connecting(kind) =>
      && Midway(g, s, allow)
      && kind in s.slots && s.slots[kind].cell.Vacant? && Calls(Current(s), kind)
      && (kind == Db && g.guarded ==> allow)
    case Recording(outcome) =>
      && Midway(g, s, allow)
      && Db in s.slots && s.slots[Db].cell.Vacant? && Calls(Current(s), Db)
      && (g.guarded ==> allow)
      && outcome == Current(s).connect
    case Operating(kind) =>
      && InCall(s)
      && Open(g, s.script).Opened?
      && |s.written| == s.read
      && Calls(Current(s), kind)
      && Half(ViewOf(g, s.script, allow), s.slots, s.script.exchanges[..s.read - 1], Current(s), kind)
    case Done =>
      && (s.written == Trace(g, s.script, allow) || s.script.writable == Some(|s.written|))
      && |s.written| <= FramesRead(s) <= |s.written| + 1
      && (!Open(g, s.script).Opened? ==> s.read == 0)
      && (s.slots != map[] ==> Open(g, s.script).Opened? && Wired(Open(g, s.script).configs, s.slots))
  }

  /** Frames a session has taken off its stream. */
  function FramesRead(s: Session): nat {
    if s.phase.Start? || s.script.first.None? then 0 else 1 + s.read
  }

  /** What was written is the beginning of the prescribed conversation, and the phase is right. */
  ghost predicate OnScript(g: Ground, s: Session, allow: bool) {
    s.written <= Trace(g, s.script, allow) && PhaseHolds(g, s, allow)
  }

  lemma NewIsOnScript(g: Ground, script: Script, allow: bool)
    ensures OnScript(g, NewSession(script), allow)
  {
  }

  lemma TraceAt(g: Ground, script: Script, allow: bool, i: nat)
    requires Open(g, script).Opened? && i < |script.exchanges|
    ensures |Trace(g, script, allow)| == |script.exchanges| + 1
    ensures Trace(g, script, allow)[0] == Ack
    ensures Trace(g, script, allow)[i + 1] ==
      Answer(ViewOf(g, script, allow), script.exchanges[..i], script.exchanges[i])
  {
  }

  lemma OpeningKeepsFaith(cfg: Config, s: Session, w: World, now: nat, allow: bool)
    requires OnScript(cfg.Ground(), s, allow)
    requires s.phase.Start? || s.phase.Opening? || s.phase.Refusing?
    ensures OnScript(cfg.Ground(), Advance(cfg, s, w, now), allow)
  {
  }

  lemma TrustedKeepsFaith(cfg: Config, s: Session, w: World, now: nat, allow: bool)
    requires OnScript(cfg.Ground(), s, allow)
    requires s.phase.Trusted?
    ensures OnScript(cfg.Ground(), Advance(cfg, s, w, now), allow)
  {
    if Resolve(cfg.table, s.phase.init).Ok? {
      FreshAgrees(ViewOf(cfg.Ground(), s.script, allow));
      assert s.script.exchanges[..0] == [];
    }
  }

  lemma PrefixGrows(part: seq<Response>, whole: seq<Response>)
    requires part <= whole && |part| < |whole|
    ensures part + [whole[|part|]] <= whole
  {
  }

  lemma WritingKeepsFaith(cfg: Config, s: Session, w: World, now: nat, allow: bool)
    requires OnScript(cfg.Ground(), s, allow)
    requires s.phase.Writing?
    ensures OnScript(cfg.Ground(), Advance(cfg, s, w, now), allow)
  {
    var g, next := cfg.Ground(), Advance(cfg, s, w, now);
    var trace := Trace(g, s.script, allow);
    if s.script.writable == Some(|s.written|) {
      assert next == Goto(s, Done);
    } else {
      PrefixGrows(s.written, trace);
      assert next.written <= trace;
      if s.phase.more {
        assert InSession(g, s, allow, s.read, s.read);
        assert InSession(g, next, allow, next.read, next.read + 1);
      } else {
        assert |trace| == 1;
        assert next.written == trace;
      }
    }
  }

  lemma EndKeepsFaith(cfg: Config, s: Session, w: World, now: nat, allow: bool)
    requires OnScript(cfg.Ground(), s, allow)
    requires s.phase.Idle? && s.read >= |s.script.exchanges|
    ensures OnScript(cfg.Ground(), Advance(cfg, s, w, now), allow)
  {
    assert s.script.exchanges[..s.read] == s.script.exchanges;
    assert Advance(cfg, s, w, now) == Goto(s, Done);
    assert |Trace(cfg.Ground(), s.script, allow)| == |s.script.exchanges| + 1;
  }

  lemma CallFrameKeepsFaith(cfg: Config, s: Session, w: World, now: nat, allow: bool)
    requires OnScript(cfg.Ground(), s, allow)
    requires s.phase.Idle? && s.read < |s.script.exchanges| && s.script.exchanges[s.read].request.CallFrame?
    ensures OnScript(cfg.Ground(), Advance(cfg, s, w, now), allow)
  {
    var next := Advance(cfg, s, w, now);
    assert next == Goto(s, Serving).(read := s.read + 1);
    assert Midway(cfg.Ground(), next, allow);
  }

  /** The answer to a frame that calls nothing. */
  function QuietAnswer(slots: Slots, request: Request): Response
    requires !request.CallFrame?
  {
    if request.DrainFrame? then Metrics(Drained(slots))
    else ProtocolError("Init already received for this session")
  }

  lemma QuietAnswerIsPrescribed(v: View, slots: Slots, past: seq<Exchange>, x: Exchange)
    requires Agree(v, slots, past) && !x.request.CallFrame?
    ensures QuietAnswer(slots, x.request) == Answer(v, past, x)
    ensures Agree(v, slots, past + [x])
  {
    QuietAgrees(v, slots, past, x);
    DrainIsHistory(v, slots, past);
  }

  lemma OtherFrameKeepsFaith(cfg: Config, s: Session, w: World, now: nat, allow: bool)
    requires OnScript(cfg.Ground(), s, allow)
    requires s.phase.Idle? && s.read < |s.script.exchanges| && !s.script.exchanges[s.read].request.CallFrame?
    ensures OnScript(cfg.Ground(), Advance(cfg, s, w, now), allow)
  {
    IdleAnswers(s);
    AnsweringKeepsFaith(cfg.Ground(), s, StepIdle(s), allow);
  }

  lemma AnsweringKeepsFaith(g: Ground, s: Session, next: Session, allow: bool)
    requires s.written <= Trace(g, s.script, allow) && InSession(g, s, allow, s.read, s.read + 1)
    requires s.read < |s.script.exchanges| && !s.script.exchanges[s.read].request.CallFrame?
    requires next
      == Goto(s, Writing(QuietAnswer(s.slots, s.script.exchanges[s.read].request), true)).(read := s.read + 1)
    ensures OnScript(g, next, allow)
  {
    OtherFrameAgrees(g, s, allow);
    ReplyKeepsFaith(g, s, next, allow, QuietAnswer(s.slots, s.script.exchanges[s.read].request));
  }

  lemma OtherFrameAgrees(g: Ground, s: Session, allow: bool)
    requires InSession(g, s, allow, s.read, s.read + 1)
    requires s.read < |s.script.exchanges| && !s.script.exchanges[s.read].request.CallFrame?
    ensures Agree(ViewOf(g, s.script, allow), s.slots, s.script.exchanges[..s.read + 1])
    ensures |s.written| < |Trace(g, s.script, allow)|
    ensures Trace(g, s.script, allow)[|s.written|] == QuietAnswer(s.slots, s.script.exchanges[s.read].request)
  {
    var xs := s.script.exchanges;
    TraceAt(g, s.script, allow, s.read);
    QuietAnswerIsPrescribed(ViewOf(g, s.script, allow), s.slots, xs[..s.read], xs[s.read]);
    assert xs[..s.read + 1] == xs[..s.read] + [xs[s.read]];
  }

  lemma IdleAnswers(s: Session)
    requires s.read < |s.script.exchanges| && !s.script.exchanges[s.read].request.CallFrame?
    ensures StepIdle(s)
      == Goto(s, Writing(QuietAnswer(s.slots, s.script.exchanges[s.read].request), true)).(read := s.read + 1)
  {
  }

  /** The prescribed answer to the request just read, ready to be written. */
  lemma ReplyKeepsFaith(g: Ground, s: Session, next: Session, allow: bool, answer: Response)
    requires s.written <= Trace(g, s.script, allow)
    requires next.script == s.script && next.written == s.written && next.phase == Writing(answer, true)
    requires InSession(g, next, allow, next.read, next.read)
    requires |s.written| < |Trace(g, s.script, allow)| && answer == Trace(g, s.script, allow)[|s.written|]
    ensures OnScript(g, next, allow)
  {
  }

  lemma RoutingKeepsFaith(cfg: Config, s: Session, w: World, now: nat, allow: bool)
    requires OnScript(cfg.Ground(), s, allow)
    requires s.phase.Serving?
    requires KindOf(Current(s).request.call.name).None? || KindOf(Current(s).request.call.name).value !in s.slots
    ensures OnScript(cfg.Ground(), Advance(cfg, s, w, now), allow)
  {
    var g, xs := cfg.Ground(), s.script.exchanges;
    var v, past, x := ViewOf(g, s.script, allow), xs[..s.read - 1], Current(s);
    TraceAt(g, s.script, allow, s.read - 1);
    assert xs[..s.read] == past + [x];
    QuietAgrees(v, s.slots, past, x);
    var next := Advance(cfg, s, w, now);
    assert InSession(g, next, allow, next.read, next.read);
    assert next.phase.response == Reply(CallResult(v, past, x));
  }

  lemma TriedKeepsFaith(cfg: Config, s: Session, w: World, now: nat, allow: bool, kind: Kind)
    requires OnScript(cfg.Ground(), s, allow)
    requires s.phase.Serving?
    requires KindOf(Current(s).request.call.name) == Some(kind) && kind in s.slots && !s.slots[kind].cell.Vacant?
    ensures OnScript(cfg.Ground(), Advance(cfg, s, w, now), allow)
  {
    var v := ViewOf(cfg.Ground(), s.script, allow);
    TriedIsHalf(v, s.slots, s.script.exchanges[..s.read - 1], Current(s), kind);
    assert Advance(cfg, s, w, now) == Goto(s, Operating(kind));
  }

  /** What routing to a vacant cell leads to: connecting, or a refused db that is settled at once. */
  ghost predicate VacantMove(guarded: bool, s: Session, next: Session, kind: Kind) {
    && next.read == s.read && next.written == s.written && next.script == s.script && kind in s.slots
    && (|| (next.phase == Connecting(kind) && next.slots == s.slots
            && (kind == Db && guarded ==> next.asked == Some(true)))
        || (next.phase == Operating(kind) && kind == Db && guarded && next.asked == Some(false)
            && next.slots == s.slots[kind := s.slots[kind].(cell := Failed(CircuitOpenError()))]))
  }

  lemma VacantIsAsked(cfg: Config, s: Session, w: World, now: nat, kind: Kind)
    requires s.phase.Serving? && InCall(s)
    requires KindOf(Current(s).request.call.name) == Some(kind) && kind in s.slots && s.slots[kind].cell.Vacant?
    requires s.slots[kind].binding.Kind() == kind
    ensures VacantMove(cfg.policy.Some?, s, Advance(cfg, s, w, now), kind)
  {
  }

  /** Filling the vacant cell with this call's outcome leads on to the operation. */
  lemma FillingKeepsFaith(g: Ground, s: Session, next: Session, allow: bool, kind: Kind, outcome: Result<nat, EgressError>)
    requires s.written <= Trace(g, s.script, allow) && Midway(g, s, allow)
    requires kind in s.slots && s.slots[kind].cell.Vacant? && Calls(Current(s), kind)
    requires outcome == ConnectOutcome(ViewOf(g, s.script, allow), kind, Current(s))
    requires next.script == s.script && next.read == s.read && next.written == s.written
    requires next.phase == Operating(kind)
    requires next.slots == s.slots[kind := s.slots[kind].(cell := CellOf(outcome))]
    ensures OnScript(g, next, allow)
  {
    FilledIsHalf(ViewOf(g, s.script, allow), s.slots, s.script.exchanges[..s.read - 1], Current(s), kind);
  }

  lemma VacantKeepsFaith(g: Ground, s: Session, next: Session, allow: bool, kind: Kind)
    requires s.written <= Trace(g, s.script, allow) && Midway(g, s, allow)
    requires kind in s.slots && s.slots[kind].cell.Vacant? && Calls(Current(s), kind)
    requires VacantMove(g.guarded, s, next, kind) && Possible(next, allow)
    ensures OnScript(g, next, allow)
  {
    if next.phase.Operating? {
      FillingKeepsFaith(g, s, next, allow, kind, Err(CircuitOpenError()));
    } else {
      assert Midway(g, next, allow);
    }
  }

  lemma AskingKeepsFaith(cfg: Config, s: Session, w: World, now: nat, allow: bool, kind: Kind)
    requires OnScript(cfg.Ground(), s, allow)
    requires s.phase.Serving?
    requires KindOf(Current(s).request.call.name) == Some(kind) && kind in s.slots && s.slots[kind].cell.Vacant?
    requires Possible(Advance(cfg, s, w, now), allow)
    ensures OnScript(cfg.Ground(), Advance(cfg, s, w, now), allow)
  {
    WiredKinds(Open(cfg.Ground(), s.script).configs, s.slots);
    VacantIsAsked(cfg, s, w, now, kind);
    VacantKeepsFaith(cfg.Ground(), s, Advance(cfg, s, w, now), allow, kind);
  }

  lemma ConnectingKeepsFaith(cfg: Config, s: Session, w: World, now: nat, allow: bool)
    requires OnScript(cfg.Ground(), s, allow)
    requires s.phase.Connecting?
    ensures OnScript(cfg.Ground(), Advance(cfg, s, w, now), allow)
  {
    WiredKinds(Open(cfg.Ground(), s.script).configs, s.slots);
    ConnectingTries(cfg, s, s.phase.kind);
    TryKeepsFaith(cfg.Ground(), s, StepConnecting(cfg, s, s.phase.kind), allow, s.phase.kind);
  }

  /** What a connect step changes. */
  ghost predicate TryMove(guarded: bool, s: Session, next: Session, kind: Kind)
    requires InCall(s) && kind in s.slots
  {
    && next.script == s.script && next.read == s.read && next.written == s.written
    && next.log == s.log + [Attempted(s.slots[kind].binding, Current(s).connect)]
    && if s.slots[kind].binding.DbBinding? && guarded
       then next.phase == Recording(Current(s).connect) && next.slots == s.slots
       else
         && next.phase == Operating(kind)
         && next.slots == s.slots[kind := s.slots[kind].(cell := CellOf(Attempt(kind, Current(s).connect)))]
  }

  lemma ConnectingTries(cfg: Config, s: Session, kind: Kind)
    requires InCall(s) && kind in s.slots
    ensures TryMove(cfg.policy.Some?, s, StepConnecting(cfg, s, kind), kind)
  {
  }

  lemma TryKeepsFaith(g: Ground, s: Session, next: Session, allow: bool, kind: Kind)
    requires s.written <= Trace(g, s.script, allow) && Midway(g, s, allow)
    requires kind in s.slots && s.slots[kind].cell.Vacant? && Calls(Current(s), kind)
    requires s.slots[kind].binding.Kind() == kind && (kind == Db && g.guarded ==> allow)
    requires TryMove(g.guarded, s, next, kind)
    ensures OnScript(g, next, allow)
  {
    if next.phase.Recording? {
      assert Midway(g, next, allow);
    } else {
      FillingKeepsFaith(g, s, next, allow, kind, Attempt(kind, Current(s).connect));
    }
  }

  lemma RecordingKeepsFaith(cfg: Config, s: Session, w: World, now: nat, allow: bool)
    requires OnScript(cfg.Ground(), s, allow)
    requires s.phase.Recording?
    ensures OnScript(cfg.Ground(), Advance(cfg, s, w, now), allow)
  {
    assert s.slots[Db].binding.DbBinding?;
    FillingKeepsFaith(cfg.Ground(), s, Advance(cfg, s, w, now), allow, Db, Attempt(Db, s.phase.outcome));
  }

  lemma OperatingKeepsFaith(cfg: Config, s: Session, w: World, now: nat, allow: bool)
    requires OnScript(cfg.Ground(), s, allow)
    requires s.phase.Operating?
    ensures OnScript(cfg.Ground(), Advance(cfg, s, w, now), allow)
  {
    var g, xs := cfg.Ground(), s.script.exchanges;
    var v, past, x := ViewOf(g, s.script, allow), xs[..s.read - 1], Current(s);
    TraceAt(g, s.script, allow, s.read - 1);
    assert xs[..s.read] == past + [x];
    OperateAgrees(v, s.slots, past, x, s.phase.kind);
    var next := StepOperating(cfg, s, s.phase.kind);
    ReplyKeepsFaith(g, s, next, allow, next.phase.response);
  }

  /** Every step keeps faith with the conversation prescribed under any breaker answer that the step
      leaves possible. */
  lemma StepKeepsFaith(cfg: Config, s: Session, w: World, now: nat, allow: bool)
    requires OnScript(cfg.Ground(), s, allow)
    requires Possible(Advance(cfg, s, w, now), allow)
    ensures OnScript(cfg.Ground(), Advance(cfg, s, w, now), allow)
  {
    match s.phase
    case Start => OpeningKeepsFaith(cfg, s, w, now, allow);
    case Opening(_) => OpeningKeepsFaith(cfg, s, w, now, allow);
    case Refusing(_) => OpeningKeepsFaith(cfg, s, w, now, allow);
    case Trusted(_) => TrustedKeepsFaith(cfg, s, w, now, allow);
    case Writing(_, _) => WritingKeepsFaith(cfg, s, w, now, allow);
    case Idle =>
      if s.read >= |s.script.exchanges| {
        EndKeepsFaith(cfg, s, w, now, allow);
      } else if s.script.exchanges[s.read].request.CallFrame? {
        CallFrameKeepsFaith(cfg, s, w, now, allow);
      } else {
        OtherFrameKeepsFaith(cfg, s, w, now, allow);
      }
    case Serving =>
      var route := KindOf(Current(s).request.call.name);
      if route.None? || route.value !in s.slots {
        RoutingKeepsFaith(cfg, s, w, now, allow);
      } else {
        if s.slots[route.value].cell.Vacant? {
          AskingKeepsFaith(cfg, s, w, now, allow, route.value);
        } else {
          TriedKeepsFaith(cfg, s, w, now, allow, route.value);
        }
      }
    case Connecting(_) => ConnectingKeepsFaith(cfg, s, w, now, allow);
    case Recording(_) => RecordingKeepsFaith(cfg, s, w, now, allow);
    case Operating(_) => OperatingKeepsFaith(cfg, s, w, now, allow);
    case Done =>
  }
}
