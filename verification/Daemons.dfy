/** Any number of sessions over one daemon: every run is a schedule of atomic session steps, and the
    theorems hold for every schedule. */
module Daemons {
  import opened Wire
  import opened Resources
  import opened SessionSpec
  import opened Ledger
  import opened Backends
  import opened Sessions
  import opened Stories
  import opened DeedSpec
  import opened Conduct

  datatype Daemon = Daemon(sessions: map<nat, Session>, failures: nat, log: seq<Entry>)

  /** One scheduling decision: which session steps, and what the clock shows. */
  datatype Move = Move(sid: nat, now: nat)

  function Boot(scripts: map<nat, Script>): Daemon {
    Daemon(map sid | sid in scripts :: NewSession(scripts[sid]), 0, [])
  }

  function Step(cfg: Config, d: Daemon, m: Move): (after: Daemon)
    ensures after.sessions.Keys == d.sessions.Keys && d.log <= after.log
  {
    if m.sid !in d.sessions then d
    else
      var s := d.sessions[m.sid];
      var next := Advance(cfg, s, World(d.failures, d.log), m.now);
      Daemon(d.sessions[m.sid := next],
             if s.phase.Refusing? then Bump(d.failures) else d.failures,
             d.log + Stamp(m.sid, next.log[|s.log|..]))
  }

  function Run(cfg: Config, d: Daemon, moves: seq<Move>): (after: Daemon)
    ensures after.sessions.Keys == d.sessions.Keys
  {
    if moves == [] then d
    else Step(cfg, Run(cfg, d, moves[..|moves| - 1]), moves[|moves| - 1])
  }

  /** The state of one session after a schedule. */
  function After(cfg: Config, scripts: map<nat, Script>, moves: seq<Move>, sid: nat): Session
    requires sid in scripts
  {
    Run(cfg, Boot(scripts), moves).sessions[sid]
  }

  /** What one session did in the course of a schedule. */
  function Deeds(cfg: Config, scripts: map<nat, Script>, moves: seq<Move>, sid: nat): seq<Effect> {
    Project(Run(cfg, Boot(scripts), moves).log, sid)
  }

  // -- The log, session by session ------------------------------------------------

  function Project(log: seq<Entry>, sid: nat): seq<Effect> {
    if log == [] then []
    else Project(log[..|log| - 1], sid)
         + (if log[|log| - 1].sid == sid then [log[|log| - 1].effect] else [])
  }

  lemma {:induction false} ProjectAppend(log: seq<Entry>, more: seq<Entry>, sid: nat)
    ensures Project(log + more, sid) == Project(log, sid) + Project(more, sid)
    decreases |more|
  {
    if more == [] {
      assert log + more == log;
    } else {
      var n := |more| - 1;
      assert (log + more)[..|log + more| - 1] == log + more[..n];
      ProjectAppend(log, more[..n], sid);
    }
  }

  lemma {:induction false} ProjectStamp(sid: nat, effects: seq<Effect>, other: nat)
    ensures Project(Stamp(sid, effects), other) == if other == sid then effects else []
    decreases |effects|
  {
    if effects != [] {
      var n := |effects| - 1;
      assert Stamp(sid, effects)[..n] == Stamp(sid, effects[..n]);
      ProjectStamp(sid, effects[..n], other);
      assert effects == effects[..n] + [effects[n]];
    }
  }

  lemma {:induction false} ProjectedHasEntry(log: seq<Entry>, sid: nat, e: Effect) returns (i: nat)
    requires e in Project(log, sid)
    ensures i < |log| && log[i] == Entry(sid, e)
    decreases |log|
  {
    var last := log[|log| - 1];
    if last == Entry(sid, e) {
      i := |log| - 1;
    } else {
      i := ProjectedHasEntry(log[..|log| - 1], sid, e);
    }
  }

  lemma {:induction false} EntryIsProjected(log: seq<Entry>, i: nat)
    requires i < |log|
    ensures log[i].effect in Project(log, log[i].sid)
    decreases |log|
  {
    if i < |log| - 1 {
      EntryIsProjected(log[..|log| - 1], i);
    }
  }

  // -- What every run keeps ---------------------------------------------------------

  /** Conversation and effects are those the script prescribes. */
  ghost predicate Keeps(g: Ground, s: Session, allow: bool) {
    OnScript(g, s, allow) && Conducts(g, s, allow)
  }

  /** Session `sid` keeps to its own script whatever the others do, and the shared log restricted to
      it is its own log. */
  ghost predicate Sound(cfg: Config, script: Script, s: Session) {
    && s.script == script
    && (forall allow :: Possible(s, allow) ==> Keeps(cfg.Ground(), s, allow))
    && Story(cfg.policy.Some?, s)
  }

  ghost predicate Inv(cfg: Config, scripts: map<nat, Script>, d: Daemon) {
    && d.sessions.Keys == scripts.Keys
    && (forall sid :: sid in scripts ==> Sound(cfg, scripts[sid], d.sessions[sid]))
    && (forall sid :: Project(d.log, sid) == if sid in scripts then d.sessions[sid].log else [])
  }

  lemma BootHolds(cfg: Config, scripts: map<nat, Script>)
    ensures Inv(cfg, scripts, Boot(scripts))
  {
    forall sid | sid in scripts ensures Sound(cfg, scripts[sid], NewSession(scripts[sid])) {
      NewHasStory(cfg.policy.Some?, scripts[sid]);
      forall allow ensures Keeps(cfg.Ground(), NewSession(scripts[sid]), allow) {
        NewIsOnScript(cfg.Ground(), scripts[sid], allow);
        NewConducts(cfg.Ground(), scripts[sid], allow);
      }
    }
  }

  lemma AdvanceIsSound(cfg: Config, script: Script, s: Session, w: World, now: nat)
    requires Sound(cfg, script, s)
    ensures Sound(cfg, script, Advance(cfg, s, w, now))
  {
    var next := Advance(cfg, s, w, now);
    var some :| Possible(s, some);
    assert Keeps(cfg.Ground(), s, some);
    OnScriptKeepsStory(cfg, s, w, now, some);
    AnswersStay(cfg, s, w, now);
    forall allow | Possible(next, allow) ensures Keeps(cfg.Ground(), next, allow) {
      assert Keeps(cfg.Ground(), s, allow);
      StepKeepsFaith(cfg, s, w, now, allow);
      StepConducts(cfg, s, w, now, allow);
    }
  }

  /** An answer of the breaker, once given, stays. */
  lemma AnswersStay(cfg: Config, s: Session, w: World, now: nat)
    requires Story(cfg.policy.Some?, s)
    ensures s.asked.Some? ==> Advance(cfg, s, w, now).asked == s.asked
  {
    if s.phase.Serving? && InCall(s) && KindOf(Current(s).request.call.name).Some? {
      assert KindStory(s, KindOf(Current(s).request.call.name).value);
    }
  }

  /** The shared log stays the merge of the sessions' logs. */
  lemma StepKeepsLog(cfg: Config, d: Daemon, m: Move, sid: nat)
    requires m.sid in d.sessions
    requires Project(d.log, sid) == if sid in d.sessions then d.sessions[sid].log else []
    ensures var after := Step(cfg, d, m);
      Project(after.log, sid) == if sid in after.sessions then after.sessions[sid].log else []
  {
    var s := d.sessions[m.sid];
    var next := Advance(cfg, s, World(d.failures, d.log), m.now);
    var added := next.log[|s.log|..];
    assert next.log == s.log + added;
    ProjectAppend(d.log, Stamp(m.sid, added), sid);
    ProjectStamp(m.sid, added, sid);
  }

  lemma StepKeepsInv(cfg: Config, scripts: map<nat, Script>, d: Daemon, m: Move)
    requires Inv(cfg, scripts, d)
    ensures Inv(cfg, scripts, Step(cfg, d, m))
  {
    if m.sid in d.sessions {
      assert Sound(cfg, scripts[m.sid], d.sessions[m.sid]);
      AdvanceIsSound(cfg, scripts[m.sid], d.sessions[m.sid], World(d.failures, d.log), m.now);
      forall sid {
        StepKeepsLog(cfg, d, m, sid);
      }
    }
  }

  lemma {:induction false} RunKeepsInv(cfg: Config, scripts: map<nat, Script>, moves: seq<Move>)
    ensures Inv(cfg, scripts, Run(cfg, Boot(scripts), moves))
    decreases |moves|
  {
    if moves == [] {
      BootHolds(cfg, scripts);
    } else {
      RunKeepsInv(cfg, scripts, moves[..|moves| - 1]);
      StepKeepsInv(cfg, scripts, Run(cfg, Boot(scripts), moves[..|moves| - 1]), moves[|moves| - 1]);
    }
  }

  // -- Theorem: interleaving is invisible -------------------------------------------

  /** In every run of any number of sessions, what a session has written is the beginning of the one
      conversation its own script prescribes, given the single answer the shared breaker gave it; a
      session that is done has written all of it unless its writer broke. Nothing else of the other
      sessions can be seen. */
  lemma EverySessionKeepsToItsScript(cfg: Config, scripts: map<nat, Script>, moves: seq<Move>, sid: nat)
    requires sid in scripts
    ensures var s := After(cfg, scripts, moves, sid);
      forall allow :: Possible(s, allow) ==>
        && s.written <= Trace(cfg.Ground(), scripts[sid], allow)
        && (s.phase.Done? && scripts[sid].writable != Some(|s.written|) ==>
              s.written == Trace(cfg.Ground(), scripts[sid], allow))
  {
    RunKeepsInv(cfg, scripts, moves);
    var s := After(cfg, scripts, moves, sid);
    assert Sound(cfg, scripts[sid], s);
    forall allow | Possible(s, allow) ensures OnScript(cfg.Ground(), s, allow) {
      assert Keeps(cfg.Ground(), s, allow);
    }
  }

  /** In every run, everything a session has done outside itself - lookups, questions, connects,
      records, dispatches - is a beginning of the one sequence its own script prescribes. A finished
      session has done and said exactly what it would have done and said if served alone: this is what
      `Serving.Serve` ensures. */
  lemma InterleavedEqualsAlone(cfg: Config, scripts: map<nat, Script>, moves: seq<Move>, sid: nat, allow: bool)
    requires sid in scripts && Possible(After(cfg, scripts, moves, sid), allow)
    ensures var g, script, deeds := cfg.Ground(), scripts[sid], Deeds(cfg, scripts, moves, sid);
      deeds <= Prescribed(g, script, allow, TotalTold(deeds), |script.exchanges|)
    ensures var g, script, deeds := cfg.Ground(), scripts[sid], Deeds(cfg, scripts, moves, sid);
      After(cfg, scripts, moves, sid).phase.Done? ==>
        && deeds == Prescribed(g, script, allow, TotalTold(deeds), Served(script))
        && After(cfg, scripts, moves, sid).written == Delivered(Trace(g, script, allow), script.writable)
  {
    RunKeepsInv(cfg, scripts, moves);
    var s := After(cfg, scripts, moves, sid);
    assert Sound(cfg, scripts[sid], s);
    assert Keeps(cfg.Ground(), s, allow);
    ConductIsPrescribed(cfg.Ground(), s, allow);
    if s.phase.Done? {
      DoneIsDelivered(cfg.Ground(), s, allow);
    }
  }

  lemma DoneIsDelivered(g: Ground, s: Session, allow: bool)
    requires OnScript(g, s, allow) && Conducts(g, s, allow) && s.phase.Done?
    ensures s.written == Delivered(Trace(g, s.script, allow), s.script.writable)
  {
    var trace := Trace(g, s.script, allow);
    assert s.written == trace[..|s.written|];
  }

  /** In every run, every drain reply a session has written is the history of the operations it had
      carried out by then, per capability and in order; so later drains extend earlier ones. */
  lemma DrainsReportHistory(cfg: Config, scripts: map<nat, Script>, moves: seq<Move>, sid: nat, i: nat, j: nat, kind: Kind)
    requires sid in scripts
    requires var s, xs := After(cfg, scripts, moves, sid), scripts[sid].exchanges;
      i <= j && j + 1 < |s.written| && j < |xs| && xs[i].request.DrainFrame? && xs[j].request.DrainFrame?
    ensures var s, xs := After(cfg, scripts, moves, sid), scripts[sid].exchanges;
      && Open(cfg.Ground(), scripts[sid]).Opened?
      && (forall allow :: Possible(s, allow) ==>
            s.written[i + 1] == Metrics(AllMetrics(ViewOf(cfg.Ground(), scripts[sid], allow), xs[..i])))
      && s.written[i + 1].Metrics? && s.written[j + 1].Metrics?
      && s.written[i + 1].metrics.Of(kind) <= s.written[j + 1].metrics.Of(kind)
  {
    EverySessionKeepsToItsScript(cfg, scripts, moves, sid);
    var s, xs := After(cfg, scripts, moves, sid), scripts[sid].exchanges;
    var g := cfg.Ground();
    forall allow | Possible(s, allow)
      ensures DrainedAt(g, scripts[sid], allow, s.written, i)
      ensures DrainedAt(g, scripts[sid], allow, s.written, j)
    {
      WrittenDrain(g, scripts[sid], allow, s.written, i);
      WrittenDrain(g, scripts[sid], allow, s.written, j);
    }
    var some :| Possible(s, some);
    LaterDrainedExtends(g, scripts[sid], some, s.written, i, j, kind);
  }

  /** The answer to the i-th request is the history of the requests before it. */
  ghost predicate DrainedAt(g: Ground, script: Script, allow: bool, written: seq<Response>, i: nat) {
    && Open(g, script).Opened? && i < |script.exchanges| && i + 1 < |written|
    && written[i + 1] == Metrics(AllMetrics(ViewOf(g, script, allow), script.exchanges[..i]))
  }

  lemma WrittenDrain(g: Ground, script: Script, allow: bool, written: seq<Response>, i: nat)
    requires written <= Trace(g, script, allow) && i + 1 < |written|
    requires i < |script.exchanges| && script.exchanges[i].request.DrainFrame?
    ensures DrainedAt(g, script, allow, written, i)
  {
    TraceAt(g, script, allow, i);
  }

  lemma LaterDrainedExtends(g: Ground, script: Script, allow: bool, written: seq<Response>, i: nat, j: nat, kind: Kind)
    requires i <= j && DrainedAt(g, script, allow, written, i) && DrainedAt(g, script, allow, written, j)
    ensures written[i + 1].metrics.Of(kind) <= written[j + 1].metrics.Of(kind)
  {
    var xs := script.exchanges;
    assert xs[..j] == xs[..i] + xs[i..j];
    LaterDrainsExtendEarlierOnes(ViewOf(g, script, allow), kind, xs[..i], xs[i..j]);
  }

  // -- Theorem: every session finishes ------------------------------------------------

  /** Steps a session may still take. */
  function Remaining(s: Session): nat {
    var rest := if s.read <= |s.script.exchanges| then 7 * (|s.script.exchanges| - s.read) else 0;
    match s.phase
    case Start => rest + 5
    case Opening(_) => rest + 4
    case Refusing(_) => rest + 3
    case Trusted(_) => rest + 3
    case Writing(_, _) => rest + 2
    case Idle => rest + 1
    case Serving => rest + 6
    case Connecting(_) => rest + 5
    case Recording(_) => rest + 4
    case Operating(_) => rest + 3
    case Done => 0
  }

  lemma QuietStepsRunOut(cfg: Config, s: Session, w: World, now: nat)
    requires IsQuiet(s.phase) && !s.phase.Done?
    requires s.read <= |s.script.exchanges|
    ensures Remaining(Advance(cfg, s, w, now)) < Remaining(s)
  {
  }

  lemma CallStepsRunOut(cfg: Config, s: Session, w: World, now: nat)
    requires Shape(s) && !IsQuiet(s.phase)
    ensures Remaining(Advance(cfg, s, w, now)) < Remaining(s)
  {
  }

  function Turns(moves: seq<Move>, sid: nat): nat {
    if moves == [] then 0
    else Turns(moves[..|moves| - 1], sid) + if moves[|moves| - 1].sid == sid then 1 else 0
  }

  /** A turn brings its session closer to the end and leaves the others where they are. */
  lemma TurnRunsOut(cfg: Config, scripts: map<nat, Script>, d: Daemon, m: Move, sid: nat)
    requires Inv(cfg, scripts, d) && sid in scripts
    ensures var s, after := d.sessions[sid], Step(cfg, d, m).sessions[sid];
      if m.sid != sid || s.phase.Done? then after == s else Remaining(after) < Remaining(s)
  {
    if m.sid == sid {
      assert Sound(cfg, scripts[sid], d.sessions[sid]);
      SoundStepsRunOut(cfg, scripts[sid], d.sessions[sid], World(d.failures, d.log), m.now);
    }
  }

  /** No session can get stuck: whatever the schedule, one that is given enough turns is done. */
  lemma {:induction false} EverySessionFinishes(cfg: Config, scripts: map<nat, Script>, moves: seq<Move>, sid: nat)
    requires sid in scripts
    ensures var s := After(cfg, scripts, moves, sid);
      s.phase.Done? || Remaining(s) + Turns(moves, sid) <= 7 * |scripts[sid].exchanges| + 5
    decreases |moves|
  {
    if moves != [] {
      var before, m := moves[..|moves| - 1], moves[|moves| - 1];
      EverySessionFinishes(cfg, scripts, before, sid);
      RunKeepsInv(cfg, scripts, before);
      TurnRunsOut(cfg, scripts, Run(cfg, Boot(scripts), before), m, sid);
    }
  }

  lemma SoundStepsRunOut(cfg: Config, script: Script, s: Session, w: World, now: nat)
    requires Sound(cfg, script, s)
    ensures Remaining(Advance(cfg, s, w, now)) < Remaining(s) || s.phase.Done?
    ensures s.phase.Done? ==> Advance(cfg, s, w, now) == s
  {
    var allow :| Possible(s, allow);
    assert OnScript(cfg.Ground(), s, allow);
    if !s.phase.Done? {
      ScriptGivesShape(cfg.Ground(), s, allow);
      if IsQuiet(s.phase) {
        QuietStepsRunOut(cfg, s, w, now);
      } else {
        CallStepsRunOut(cfg, s, w, now);
      }
    }
  }

  // -- Theorem: response discipline -------------------------------------------------

  ghost predicate WellPaced(g: Ground, s: Session) {
    && |s.written| <= FramesRead(s) <= |s.written| + 1
    && (s.written != [] ==> (s.written[0] == Ack <==> Open(g, s.script).Opened?))
    && (!Open(g, s.script).Opened? ==> |s.written| <= 1 && FramesRead(s) <= 1)
  }

  lemma OnScriptIsWellPaced(g: Ground, s: Session, allow: bool)
    requires OnScript(g, s, allow)
    ensures WellPaced(g, s)
  {
  }

  /** In every reachable state of every session, the responses written are as many as the frames read
      or one fewer; the conversation starts with `Ack` exactly when the session opens; and a session
      that does not open writes at most one frame and reads no second one. */
  lemma ResponsesAnswerRequests(cfg: Config, scripts: map<nat, Script>, moves: seq<Move>, sid: nat)
    requires sid in scripts
    ensures WellPaced(cfg.Ground(), After(cfg, scripts, moves, sid))
  {
    RunKeepsInv(cfg, scripts, moves);
    var s := After(cfg, scripts, moves, sid);
    assert Sound(cfg, scripts[sid], s);
    var allow :| Possible(s, allow);
    OnScriptIsWellPaced(cfg.Ground(), s, allow);
  }

  /** What is done is done: whatever is scheduled later, a finished session keeps its state, writes
      nothing more and does nothing more. */
  lemma {:induction false} DoneIsFinal(cfg: Config, d: Daemon, more: seq<Move>, sid: nat)
    requires sid in d.sessions && d.sessions[sid].phase.Done?
    ensures Run(cfg, d, more).sessions[sid] == d.sessions[sid]
    ensures Project(Run(cfg, d, more).log, sid) == Project(d.log, sid)
    decreases |more|
  {
    if more != [] {
      var m, before := more[|more| - 1], Run(cfg, d, more[..|more| - 1]);
      DoneIsFinal(cfg, d, more[..|more| - 1], sid);
      DoneStaysDone(cfg, before, m, sid);
    }
  }

  lemma DoneStaysDone(cfg: Config, d: Daemon, m: Move, sid: nat)
    requires sid in d.sessions && d.sessions[sid].phase.Done?
    ensures Step(cfg, d, m).sessions[sid] == d.sessions[sid]
    ensures Project(Step(cfg, d, m).log, sid) == Project(d.log, sid)
  {
    if m.sid == sid {
      DoneStandsStill(cfg, d, m);
    } else {
      OthersDoNothingForIt(cfg, d, m, sid);
    }
  }

  lemma DoneStandsStill(cfg: Config, d: Daemon, m: Move)
    requires m.sid in d.sessions && d.sessions[m.sid].phase.Done?
    ensures Step(cfg, d, m) == d
  {
    var s := d.sessions[m.sid];
    assert Stamp(m.sid, s.log[|s.log|..]) == [];
    assert d.sessions[m.sid := s] == d.sessions;
  }

  lemma OthersDoNothingForIt(cfg: Config, d: Daemon, m: Move, sid: nat)
    requires sid in d.sessions && m.sid != sid
    ensures Step(cfg, d, m).sessions[sid] == d.sessions[sid]
    ensures Project(Step(cfg, d, m).log, sid) == Project(d.log, sid)
  {
    if m.sid in d.sessions {
      var s := d.sessions[m.sid];
      var added := Advance(cfg, s, World(d.failures, d.log), m.now).log[|s.log|..];
      ProjectAppend(d.log, Stamp(m.sid, added), sid);
      ProjectStamp(m.sid, added, sid);
    }
  }

  // -- Theorem: authentication comes first -------------------------------------------

  /** Rejected and nothing else; or accepted, then looked up, then everything else. */
  ghost predicate TrustFirst(accepted: bool, log: seq<Effect>) {
    if accepted then
      && (|log| >= 1 ==> log[0] == Authenticated(true))
      && (|log| >= 2 ==> log[1] == LookedUp)
      && (forall i :: 2 <= i < |log| ==> !log[i].Authenticated? && !log[i].Rejected? && !log[i].LookedUp?)
    else
      && |log| <= 2
      && (|log| >= 1 ==> log[0] == Authenticated(false))
      && (|log| == 2 ==> log[1].Rejected?)
  }

  lemma StoryTrustsFirst(s: Session)
    requires AuthStory(s)
    ensures TrustFirst(Accepted(s.script), s.log)
  {
  }

  /** In every run, a session whose token was not accepted leaves no trace but its judgement and one
      counted rejection - no lookup, no backend, no connect, no dispatch - and in any other session
      the acceptance precedes the lookup, which precedes everything else. */
  lemma AuthenticationPrecedesEverything(cfg: Config, scripts: map<nat, Script>, moves: seq<Move>, sid: nat)
    requires sid in scripts
    ensures TrustFirst(Accepted(scripts[sid]), Deeds(cfg, scripts, moves, sid))
  {
    RunKeepsInv(cfg, scripts, moves);
    var s := After(cfg, scripts, moves, sid);
    assert Sound(cfg, scripts[sid], s);
    StoryTrustsFirst(s);
  }

  /** The totals reported by the rejections of a run, in order. */
  function Totals(log: seq<Entry>): seq<nat> {
    if log == [] then []
    else Totals(log[..|log| - 1])
         + (if log[|log| - 1].effect.Rejected? then [log[|log| - 1].effect.total] else [])
  }

  lemma {:induction false} TotalsAppend(log: seq<Entry>, more: seq<Entry>)
    ensures Totals(log + more) == Totals(log) + Totals(more)
    decreases |more|
  {
    if more == [] {
      assert log + more == log;
    } else {
      var n := |more| - 1;
      assert (log + more)[..|log + more| - 1] == log + more[..n];
      TotalsAppend(log, more[..n]);
    }
  }

  /** The counter is the number of rejections so far, in a 64-bit word, and the i-th rejection was
      told the count it made. */
  ghost predicate Counted(d: Daemon) {
    && d.failures == |Totals(d.log)| % WORD
    && (forall i :: 0 <= i < |Totals(d.log)| ==> Totals(d.log)[i] == TotalAfter(i % WORD))
  }

  lemma CallsRejectNobody(cfg: Config, s: Session, w: World, now: nat)
    requires !IsQuiet(s.phase) && !s.phase.Trusted?
    ensures var next := Advance(cfg, s, w, now);
      next.log == s.log || (|next.log| == |s.log| + 1 && !next.log[|s.log|].Rejected?)
  {
  }

  lemma NewEffects(cfg: Config, s: Session, w: World, now: nat)
    ensures var added := Advance(cfg, s, w, now).log[|s.log|..];
      if s.phase.Refusing? then added == [Rejected(TotalAfter(w.failures))]
      else forall i :: 0 <= i < |added| ==> !added[i].Rejected?
  {
    if IsQuiet(s.phase) {
      QuietStepsAreQuiet(cfg, s, w, now);
      assert Advance(cfg, s, w, now).log[|s.log|..] == QuietEffects(s, w);
    } else if !s.phase.Trusted? {
      CallsRejectNobody(cfg, s, w, now);
    }
  }

  lemma {:induction false} NoTotals(sid: nat, effects: seq<Effect>)
    requires forall i :: 0 <= i < |effects| ==> !effects[i].Rejected?
    ensures Totals(Stamp(sid, effects)) == []
    decreases |effects|
  {
    if effects != [] {
      var n := |effects| - 1;
      assert Stamp(sid, effects)[..n] == Stamp(sid, effects[..n]);
      NoTotals(sid, effects[..n]);
    }
  }

  lemma StepKeepsCount(cfg: Config, d: Daemon, m: Move)
    requires Counted(d)
    ensures Counted(Step(cfg, d, m))
  {
    if m.sid in d.sessions {
      var s := d.sessions[m.sid];
      var w := World(d.failures, d.log);
      var added := Advance(cfg, s, w, m.now).log[|s.log|..];
      NewEffects(cfg, s, w, m.now);
      TotalsAppend(d.log, Stamp(m.sid, added));
      if s.phase.Refusing? {
        OneTotal(m.sid, TotalAfter(d.failures));
        WordStep(|Totals(d.log)|);
      } else {
        NoTotals(m.sid, added);
      }
    }
  }

  lemma OneTotal(sid: nat, total: nat)
    ensures Totals(Stamp(sid, [Rejected(total)])) == [total]
  {
    StampOne(sid, Rejected(total));
    assert [Entry(sid, Rejected(total))][..0] == [];
  }

  lemma WordStep(n: nat)
    ensures Bump(n % WORD) == (n + 1) % WORD
  {
  }

  /** Over every run the counter equals the number of rejections counted, and the running totals they
      report are 1, 2, .., n, pairwise distinct, exactly as long as n stays below 2^64; the 2^64-th
      repeats its predecessor. */
  lemma {:induction false} RejectionsAreCounted(cfg: Config, scripts: map<nat, Script>, moves: seq<Move>)
    ensures Counted(Run(cfg, Boot(scripts), moves))
    decreases |moves|
  {
    if moves != [] {
      RejectionsAreCounted(cfg, scripts, moves[..|moves| - 1]);
      StepKeepsCount(cfg, Run(cfg, Boot(scripts), moves[..|moves| - 1]), moves[|moves| - 1]);
    }
  }

  /** Each rejection is a session of its own: the sessions rejected and counted are as many as the
      totals reported. */
  lemma RejectionsAreSessions(cfg: Config, scripts: map<nat, Script>, moves: seq<Move>)
    ensures var log := Run(cfg, Boot(scripts), moves).log;
      && |Totals(log)| == |Sids(log, Rejection)|
      && (forall sid :: sid in Sids(log, Rejection) ==> sid in scripts && !Accepted(scripts[sid]))
  {
    RunKeepsInv(cfg, scripts, moves);
    var d := Run(cfg, Boot(scripts), moves);
    forall sid
      ensures |Filter(Project(d.log, sid), Rejection)| <= 1
      ensures sid in Sids(d.log, Rejection) ==> sid in scripts && !Accepted(scripts[sid])
    {
      SidsAreThoseWithEntries(d.log, Rejection, sid);
      if sid in scripts {
        assert Sound(cfg, scripts[sid], d.sessions[sid]);
        StoryTrustsFirst(d.sessions[sid]);
        RejectedOnce(Accepted(scripts[sid]), d.sessions[sid].log);
      } else {
        assert Project(d.log, sid) == [];
      }
    }
    CountBySession(d.log, Rejection);
    TotalsAreRejections(d.log);
  }

  lemma RejectedOnce(accepted: bool, log: seq<Effect>)
    requires TrustFirst(accepted, log)
    ensures |Filter(log, Rejection)| <= 1
    ensures Filter(log, Rejection) != [] ==> !accepted
  {
    if accepted {
      NothingAbout(log, Rejection);
    } else if |log| == 2 {
      assert log == [log[0], log[1]];
      FilterTwo(log[0], log[1], Rejection);
      FilterOne(log[0], Rejection);
    } else if |log| == 1 {
      assert log == [log[0]];
      FilterOne(log[0], Rejection);
    }
  }

  lemma {:induction false} NothingAbout(log: seq<Effect>, topic: Topic)
    requires forall i :: 0 <= i < |log| ==> !About(log[i], topic)
    ensures Filter(log, topic) == []
    decreases |log|
  {
    if log != [] {
      NothingAbout(log[..|log| - 1], topic);
    }
  }

  lemma {:induction false} TotalsAreRejections(log: seq<Entry>)
    ensures |Totals(log)| == Count(log, Rejection)
    decreases |log|
  {
    if log != [] {
      TotalsAreRejections(log[..|log| - 1]);
    }
  }

  lemma TotalsAreDistinctBelowWord(d: Daemon)
    requires Counted(d)
    ensures |Totals(d.log)| < 0x1_0000_0000_0000_0000 ==>
      d.failures == |Totals(d.log)| && forall i :: 0 <= i < |Totals(d.log)| ==> Totals(d.log)[i] == i + 1
    ensures |Totals(d.log)| < 0x1_0000_0000_0000_0000 <==>
      forall i, j :: 0 <= i < j < |Totals(d.log)| ==> Totals(d.log)[i] != Totals(d.log)[j]
  {
    var totals := Totals(d.log);
    if |totals| >= WORD {
      assert (WORD - 2) % WORD == WORD - 2 && (WORD - 1) % WORD == WORD - 1;
      assert totals[WORD - 2] == totals[WORD - 1];
    } else {
      forall i | 0 <= i < |totals| ensures totals[i] == i + 1 {
        assert i % WORD == i;
      }
    }
  }

  // -- Theorem: connect once ----------------------------------------------------------

  /** One attempt at most; dispatches only to the client it won. */
  ghost predicate ConnectedOnce(attempts: seq<Effect>, dispatches: seq<Effect>) {
    && |attempts| <= 1
    && (dispatches != [] ==> attempts != [] && attempts[0].Attempted? && attempts[0].outcome.Ok?)
    && (forall i :: 0 <= i < |dispatches| ==>
          dispatches[i].Dispatched? && attempts[0] == Attempted(attempts[0].binding, Ok(dispatches[i].client)))
  }

  lemma StoryConnectsOnce(s: Session, kind: Kind)
    requires KindStory(s, kind) && kind != Amq
    ensures ConnectedOnce(Filter(s.log, AttemptOf(kind)), Filter(s.log, DispatchOf(kind)))
  {
  }

  /** In every run, each session attempts to connect each kind at most once; whatever it dispatches to
      a kind other than amq goes to the client of that one successful attempt; and after a failed or
      refused connect nothing is dispatched. */
  lemma ConnectsAtMostOnce(cfg: Config, scripts: map<nat, Script>, moves: seq<Move>, sid: nat, kind: Kind)
    requires sid in scripts && kind != Amq
    ensures var log := Deeds(cfg, scripts, moves, sid);
      ConnectedOnce(Filter(log, AttemptOf(kind)), Filter(log, DispatchOf(kind)))
  {
    RunKeepsInv(cfg, scripts, moves);
    var d := Run(cfg, Boot(scripts), moves);
    assert Sound(cfg, scripts[sid], d.sessions[sid]);
    StoryConnectsOnce(d.sessions[sid], kind);
  }

  // -- Theorem: credentials stay with their tenant --------------------------------------

  /** An entry of the shared log is among its session's effects on that topic. */
  lemma {:induction false} EntryIsFiltered(log: seq<Entry>, topic: Topic, i: nat)
    requires i < |log| && About(log[i].effect, topic)
    ensures log[i].effect in Filter(Project(log, log[i].sid), topic)
    decreases |log|
  {
    var rest, last, sid := log[..|log| - 1], log[|log| - 1], log[i].sid;
    if last.sid == sid {
      FilterSnoc(Project(rest, sid), last.effect, topic);
    } else {
      assert Project(log, sid) == Project(rest, sid);
    }
    if i < |log| - 1 {
      EntryIsFiltered(rest, topic, i);
    }
  }

  /** The effects that use credentials: connecting, and - for amq, which connects anew for every
      operation - dispatching. */
  predicate UsesCredentials(e: Effect) {
    e.Attempted? || e.Dispatched?
  }

  lemma CredentialsAreTheSlots(s: Session, kind: Kind, e: Effect)
    requires KindStory(s, kind) && UsesCredentials(e)
    requires e in Filter(s.log, if e.Attempted? then AttemptOf(kind) else DispatchOf(kind))
    ensures kind in s.slots && e.binding == s.slots[kind].binding
  {
  }

  /** Whatever a session has wired is what its `Init` resolved to. */
  lemma SlotsAreResolved(g: Ground, s: Session, allow: bool, kind: Kind)
    requires OnScript(g, s, allow) && kind in s.slots
    ensures Open(g, s.script).Opened?
    ensures Open(g, s.script).configs.For(kind) == Some(s.slots[kind].binding)
  {
    if !s.phase.Done? {
      assert IsOpen(s);
      assert Wired(Open(g, s.script).configs, s.slots);
    }
  }

  /** A binding a session may use for a kind: the entry of its own tenant's that its `Init` named, with
      at most the statement timeout clamped. */
  ghost predicate Entitled(cfg: Config, init: Init, kind: Kind, binding: Binding) {
    && init.Name(kind).Some?
    && init.Name(kind).value in cfg.table
    && var entry := cfg.table[init.Name(kind).value];
    && entry.tenant == init.tenant
    && entry.binding.Kind() == binding.Kind() == kind
    && (kind != Db ==> binding == entry.binding)
    && (kind == Db ==>
          && binding.dbConfig.(statementTimeoutMs := entry.binding.dbConfig.statementTimeoutMs) == entry.binding.dbConfig
          && (cfg.ceilingMs > 0 ==> 1 <= binding.dbConfig.statementTimeoutMs <= cfg.ceilingMs))
  }

  lemma ResolvedIsEntitled(cfg: Config, init: Init, kind: Kind)
    requires Resolve(cfg.table, init).Ok?
    requires Clamp(Resolve(cfg.table, init).value, cfg.ceilingMs).For(kind).Some?
    ensures Entitled(cfg, init, kind, Clamp(Resolve(cfg.table, init).value, cfg.ceilingMs).For(kind).value)
  {
    ResolveIsFaithful(cfg.table, init);
    var resolved := Resolve(cfg.table, init).value;
    assert Fate(Visible(cfg.table, init.tenant), init, kind) == Ok(resolved.For(kind));
    var clamped := Clamp(resolved, cfg.ceilingMs);
    if kind != Db {
      assert clamped.For(kind) == resolved.For(kind);
    }
  }

  /** A sound session uses only what its `Init` entitles it to. */
  lemma SoundUsesItsOwn(cfg: Config, script: Script, s: Session, e: Effect)
    requires Sound(cfg, script, s) && UsesCredentials(e)
    requires e in Filter(s.log, if e.Attempted? then AttemptOf(e.binding.Kind()) else DispatchOf(e.binding.Kind()))
    ensures Accepted(script) && Entitled(cfg, script.first.value.init, e.binding.Kind(), e.binding)
  {
    var kind := e.binding.Kind();
    assert KindStory(s, kind);
    CredentialsAreTheSlots(s, kind, e);
    var allow :| Possible(s, allow);
    assert Keeps(cfg.Ground(), s, allow);
    SlotsAreResolved(cfg.Ground(), s, allow, kind);
    ResolvedIsEntitled(cfg, script.first.value.init, kind);
  }

  /** In every run, every connect attempt and every operation of every session is made with a binding its
      own tenant is entitled to and its `Init` named, after its token was accepted; and with a ceiling,
      every db connect runs under a statement timeout in 1..ceiling. */
  lemma CredentialsStayWithTheirTenant(cfg: Config, scripts: map<nat, Script>, moves: seq<Move>, i: nat)
    requires i < |Run(cfg, Boot(scripts), moves).log|
    requires UsesCredentials(Run(cfg, Boot(scripts), moves).log[i].effect)
    ensures var entry := Run(cfg, Boot(scripts), moves).log[i];
      && entry.sid in scripts
      && Accepted(scripts[entry.sid])
      && Entitled(cfg, scripts[entry.sid].first.value.init, entry.effect.binding.Kind(), entry.effect.binding)
  {
    RunKeepsInv(cfg, scripts, moves);
    var d := Run(cfg, Boot(scripts), moves);
    var e, sid := d.log[i].effect, d.log[i].sid;
    EntryIsFiltered(d.log, if e.Attempted? then AttemptOf(e.binding.Kind()) else DispatchOf(e.binding.Kind()), i);
    assert sid in scripts;
    SoundUsesItsOwn(cfg, scripts[sid], d.sessions[sid], e);
  }

  // -- Theorem: the answers are the breaker's -----------------------------------------

  /** Every answer in the log is the breaker's own, given on everything it had heard by then. */
  ghost predicate Answered(cfg: Config, log: seq<Entry>) {
    forall i :: 0 <= i < |log| && log[i].effect.Asked? ==> AnsweredAt(cfg, log, i)
  }

  ghost predicate AnsweredAt(cfg: Config, log: seq<Entry>, i: nat)
    requires i < |log| && log[i].effect.Asked?
  {
    && cfg.policy.Some?
    && exists now: nat :: cfg.policy.value(log[..i], log[i].effect.target, now) == log[i].effect.allowed
  }

  /** A step asks at most once, first thing, and is told the decision on the log as it stands. */
  ghost predicate AsksOnce(cfg: Config, heard: seq<Entry>, now: nat, added: seq<Effect>) {
    forall i :: 0 <= i < |added| && added[i].Asked? ==>
      i == 0 && cfg.policy.Some? && cfg.policy.value(heard, added[i].target, now) == added[i].allowed
  }

  lemma CallAsksOnce(cfg: Config, s: Session, w: World, now: nat)
    requires !IsQuiet(s.phase) && !s.phase.Trusted?
    ensures AsksOnce(cfg, w.log, now, Advance(cfg, s, w, now).log[|s.log|..])
  {
  }

  lemma StepAsksOnce(cfg: Config, s: Session, w: World, now: nat)
    ensures AsksOnce(cfg, w.log, now, Advance(cfg, s, w, now).log[|s.log|..])
  {
    if IsQuiet(s.phase) {
      QuietStepsAreQuiet(cfg, s, w, now);
      assert Advance(cfg, s, w, now).log[|s.log|..] == QuietEffects(s, w);
    } else if !s.phase.Trusted? {
      CallAsksOnce(cfg, s, w, now);
    }
  }

  lemma AppendKeepsAnswers(cfg: Config, log: seq<Entry>, sid: nat, now: nat, added: seq<Effect>)
    requires Answered(cfg, log) && AsksOnce(cfg, log, now, added)
    ensures Answered(cfg, log + Stamp(sid, added))
  {
    var after := log + Stamp(sid, added);
    forall i | 0 <= i < |after| && after[i].effect.Asked? ensures AnsweredAt(cfg, after, i) {
      if i < |log| {
        assert AnsweredAt(cfg, log, i);
        assert after[..i] == log[..i];
      } else {
        assert after[i].effect == added[i - |log|];
        assert after[..i] == log;
      }
    }
  }

  lemma StepKeepsAnswers(cfg: Config, d: Daemon, m: Move)
    requires Answered(cfg, d.log)
    ensures Answered(cfg, Step(cfg, d, m).log)
  {
    if m.sid in d.sessions {
      var s, w := d.sessions[m.sid], World(d.failures, d.log);
      StepAsksOnce(cfg, s, w, m.now);
      AppendKeepsAnswers(cfg, d.log, m.sid, m.now, Advance(cfg, s, w, m.now).log[|s.log|..]);
    }
  }

  /** In every run, what a session hears from the breaker is the breaker's decision on the shared
      log up to that moment. */
  lemma {:induction false} AnswersComeFromTheBreaker(cfg: Config, scripts: map<nat, Script>, moves: seq<Move>)
    ensures Answered(cfg, Run(cfg, Boot(scripts), moves).log)
    decreases |moves|
  {
    if moves != [] {
      AnswersComeFromTheBreaker(cfg, scripts, moves[..|moves| - 1]);
      StepKeepsAnswers(cfg, Run(cfg, Boot(scripts), moves[..|moves| - 1]), moves[|moves| - 1]);
    }
  }

  // -- Theorem: breaker discipline ------------------------------------------------------

  function Count(log: seq<Entry>, topic: Topic): nat {
    if log == [] then 0
    else Count(log[..|log| - 1], topic) + (if About(log[|log| - 1].effect, topic) then 1 else 0)
  }

  function Sids(log: seq<Entry>, topic: Topic): set<nat> {
    if log == [] then {}
    else Sids(log[..|log| - 1], topic) + (if About(log[|log| - 1].effect, topic) then {log[|log| - 1].sid} else {})
  }

  lemma {:induction false} SidsAreThoseWithEntries(log: seq<Entry>, topic: Topic, sid: nat)
    ensures sid in Sids(log, topic) <==> Filter(Project(log, sid), topic) != []
    decreases |log|
  {
    if log != [] {
      var rest, last := log[..|log| - 1], log[|log| - 1];
      SidsAreThoseWithEntries(rest, topic, sid);
      if last.sid == sid {
        FilterSnoc(Project(rest, sid), last.effect, topic);
      } else {
        assert Project(log, sid) == Project(rest, sid);
      }
    }
  }

  /** When no session contributes twice, entries can be counted by counting sessions. */
  lemma {:induction false} CountBySession(log: seq<Entry>, topic: Topic)
    requires forall sid :: |Filter(Project(log, sid), topic)| <= 1
    ensures Count(log, topic) == |Sids(log, topic)|
    decreases |log|
  {
    if log != [] {
      var rest, last := log[..|log| - 1], log[|log| - 1];
      forall sid ensures |Filter(Project(rest, sid), topic)| <= 1 {
        assert |Filter(Project(log, sid), topic)| <= 1;
        if last.sid == sid {
          FilterSnoc(Project(rest, sid), last.effect, topic);
        } else {
          assert Project(log, sid) == Project(rest, sid);
        }
      }
      CountBySession(rest, topic);
      if About(last.effect, topic) {
        assert |Filter(Project(log, last.sid), topic)| <= 1;
        FilterSnoc(Project(rest, last.sid), last.effect, topic);
        SidsAreThoseWithEntries(rest, topic, last.sid);
      }
    }
  }

  /** A topic inside another can be looked up in the filtered log. */
  lemma {:induction false} FilterWithin(log: seq<Effect>, outer: Topic, inner: Topic)
    requires forall e :: About(e, inner) ==> About(e, outer)
    ensures Filter(Filter(log, outer), inner) == Filter(log, inner)
    decreases |log|
  {
    if log != [] {
      var rest, e := log[..|log| - 1], log[|log| - 1];
      FilterWithin(rest, outer, inner);
      if About(e, outer) {
        FilterSnoc(Filter(rest, outer), e, inner);
      } else {
        assert Filter(log, outer) == Filter(rest, outer);
      }
    }
  }

  /** A breaker story has at most one positive answer, one attempt and one record, on one target; an
      attempt needs the answer and a record needs the attempt. */
  ghost predicate Disciplined(story: seq<Effect>, target: string) {
    && |Filter(story, RecordFor(target))| <= |Filter(story, AttemptOn(target))|
    && |Filter(story, AttemptOn(target))| <= |Filter(story, AllowFor(target))| <= 1
  }

  lemma FilterOne(a: Effect, topic: Topic)
    ensures Filter([a], topic) == if About(a, topic) then [a] else []
  {
    FilterSnoc([], a, topic);
    assert [] + [a] == [a];
  }

  lemma FilterTwo(a: Effect, b: Effect, topic: Topic)
    ensures Filter([a, b], topic) == Filter([a], topic) + if About(b, topic) then [b] else []
  {
    FilterSnoc([a], b, topic);
    assert [a] + [b] == [a, b];
  }

  lemma FilterThree(a: Effect, b: Effect, c: Effect, topic: Topic)
    ensures Filter([a, b, c], topic) == Filter([a, b], topic) + if About(c, topic) then [c] else []
  {
    FilterSnoc([a, b], c, topic);
    assert [a, b] + [c] == [a, b, c];
  }

  /** How far a guarded connect may have got. */
  ghost predicate Lawful(story: seq<Effect>) {
    || story == []
    || (|story| == 1 && story[0].Asked?)
    || (|story| == 2 && Began(story[0], story[1]))
    || (|story| == 3 && Began(story[0], story[1]) && story[2] == Recorded(story[0].target, story[1].outcome.Ok?))
  }

  ghost predicate Began(asked: Effect, tried: Effect) {
    && asked.Asked? && asked.allowed
    && tried.Attempted? && tried.binding.DbBinding? && Target(tried.binding.dbConfig) == asked.target
  }

  /** How many of a question, an attempt and a record are about a topic. */
  function Tally(story: seq<Effect>, topic: Topic): nat {
    (if |story| >= 1 && About(story[0], topic) then 1 else 0)
    + (if |story| >= 2 && About(story[1], topic) then 1 else 0)
    + (if |story| >= 3 && About(story[2], topic) then 1 else 0)
  }

  lemma FilterTallies(story: seq<Effect>, topic: Topic)
    requires |story| <= 3
    ensures |Filter(story, topic)| == Tally(story, topic)
  {
    if |story| == 3 {
      assert story == [story[0], story[1], story[2]];
      TallyOfThree(story[0], story[1], story[2], topic);
    } else if |story| == 2 {
      assert story == [story[0], story[1]];
      FilterOne(story[0], topic);
      FilterTwo(story[0], story[1], topic);
    } else if |story| == 1 {
      assert story == [story[0]];
      FilterOne(story[0], topic);
    }
  }

  lemma TallyOfThree(a: Effect, b: Effect, c: Effect, topic: Topic)
    ensures |Filter([a, b, c], topic)| == Tally([a, b, c], topic)
  {
    FilterOne(a, topic);
    FilterTwo(a, b, topic);
    FilterThree(a, b, c, topic);
  }

  lemma LawfulIsDisciplined(story: seq<Effect>, target: string)
    requires Lawful(story)
    ensures Disciplined(story, target)
  {
    FilterTallies(story, RecordFor(target));
    FilterTallies(story, AttemptOn(target));
    FilterTallies(story, AllowFor(target));
  }

  lemma StoryIsLawful(s: Session)
    requires BreakerStory(true, s)
    ensures Lawful(Filter(s.log, BreakerTalk))
  {
  }

  /** Lawful; a refusal ends it; and only a connect under way leaves it unfinished. */
  ghost predicate Obedient(story: seq<Effect>, phase: Phase) {
    && Lawful(story)
    && (story != [] && !story[0].allowed ==> |story| == 1)
    && (phase != Connecting(Db) && !phase.Recording? ==> |story| == 0 || !story[0].allowed || |story| == 3)
  }

  lemma StoryIsObedient(s: Session)
    requires BreakerStory(true, s)
    ensures Obedient(Filter(s.log, BreakerTalk), s.phase)
  {
    StoryIsLawful(s);
  }

  lemma SessionIsDisciplined(s: Session, target: string)
    requires BreakerStory(true, s)
    ensures Disciplined(s.log, target)
  {
    StoryIsLawful(s);
    LawfulIsDisciplined(Filter(s.log, BreakerTalk), target);
    FilterWithin(s.log, BreakerTalk, RecordFor(target));
    FilterWithin(s.log, BreakerTalk, AttemptOn(target));
    FilterWithin(s.log, BreakerTalk, AllowFor(target));
  }

  /** In every run with a breaker, each session's dealings with it are: nothing; a question; a
      positive answer and then a connect to that very target; or these two and then exactly one
      record of the true outcome. A session between two requests never stops halfway, and a refusal
      is followed by neither attempt nor record. */
  lemma BreakerIsObeyed(cfg: Config, scripts: map<nat, Script>, moves: seq<Move>, sid: nat)
    requires sid in scripts && cfg.policy.Some?
    ensures Obedient(Filter(Deeds(cfg, scripts, moves, sid), BreakerTalk), After(cfg, scripts, moves, sid).phase)
  {
    RunKeepsInv(cfg, scripts, moves);
    var s := After(cfg, scripts, moves, sid);
    assert Sound(cfg, scripts[sid], s);
    StoryIsObedient(s);
  }

  /** Over all sessions of every run with a breaker and for every target: records never exceed
      attempts, attempts never exceed positive answers, and no session accounts for two of any. */
  lemma BreakerCountsAreOrdered(cfg: Config, scripts: map<nat, Script>, moves: seq<Move>, target: string)
    requires cfg.policy.Some?
    ensures var log := Run(cfg, Boot(scripts), moves).log;
      && Count(log, RecordFor(target)) <= Count(log, AttemptOn(target)) <= Count(log, AllowFor(target))
      && Sids(log, RecordFor(target)) <= Sids(log, AttemptOn(target)) <= Sids(log, AllowFor(target)) <= scripts.Keys
      && Count(log, AllowFor(target)) <= |scripts|
  {
    RunKeepsInv(cfg, scripts, moves);
    var d := Run(cfg, Boot(scripts), moves);
    forall sid ensures Disciplined(Project(d.log, sid), target) {
      if sid in scripts {
        assert Sound(cfg, scripts[sid], d.sessions[sid]);
        SessionIsDisciplined(d.sessions[sid], target);
      } else {
        assert Project(d.log, sid) == [];
      }
    }
    forall sid
      ensures sid in Sids(d.log, RecordFor(target)) ==> sid in Sids(d.log, AttemptOn(target))
      ensures sid in Sids(d.log, AttemptOn(target)) ==> sid in Sids(d.log, AllowFor(target))
      ensures sid in Sids(d.log, AllowFor(target)) ==> sid in scripts
    {
      assert Disciplined(Project(d.log, sid), target);
      SidsAreThoseWithEntries(d.log, RecordFor(target), sid);
      SidsAreThoseWithEntries(d.log, AttemptOn(target), sid);
      SidsAreThoseWithEntries(d.log, AllowFor(target), sid);
    }
    CountBySession(d.log, RecordFor(target));
    CountBySession(d.log, AttemptOn(target));
    CountBySession(d.log, AllowFor(target));
    Smaller(Sids(d.log, RecordFor(target)), Sids(d.log, AttemptOn(target)));
    Smaller(Sids(d.log, AttemptOn(target)), Sids(d.log, AllowFor(target)));
    Smaller(Sids(d.log, AllowFor(target)), scripts.Keys);
  }

  lemma {:induction false} Smaller(a: set<nat>, b: set<nat>)
    requires a <= b
    ensures |a| <= |b|
  {
    assert b == a + (b - a);
  }
}
