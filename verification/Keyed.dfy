/** The daemon together with its key cache: refreshes of the cluster keys happen between the steps of the
    sessions, and a service-account session is judged by the keys as they stand when its turn comes. */
module Keyed {
  import opened Wire
  import opened ClientAuth
  import opened SessionSpec
  import opened Ledger
  import opened Sessions
  import opened Stories
  import opened Daemons
  import opened Jwks

  /** The offline verifier: header decoding, signature and claim checks, and the wording of errors. */
  datatype Offline = Offline(decode: string -> Token, check: Checker, wording: VerifyError -> string)

  /** A step of a session, or a finished refresh of the keys. */
  datatype KeyedMove = Steps(move: Move) | Refreshes(fetch: Result<KeySet, string>)

  /** `judged` remembers how much had happened to the keys when a session was judged. */
  datatype KeyedDaemon = KeyedDaemon(daemon: Daemon, events: seq<Event>, judged: map<nat, nat>)

  /** The verdict on a presented token, given all that happened to the keys. */
  function Verdict(off: Offline, events: seq<Event>, token: string): Result<(), string> {
    match Judge(off.check, events, off.decode(token))
    case Ok(_) => Ok(())
    case Err(e) => Err(off.wording(e))
  }

  /** The session is about to be judged by the verifier. */
  predicate IsDue(s: Session) {
    s.phase.Opening? && s.script.authenticator.ServiceAccount? && s.phase.init.token.Some?
  }

  function WithVerdict(script: Script, verdict: Result<(), string>): Script {
    script.(verdict := verdict)
  }

  function Amend(d: Daemon, sid: nat, verdict: Result<(), string>): Daemon
    requires sid in d.sessions
  {
    var s := d.sessions[sid];
    d.(sessions := d.sessions[sid := s.(script := WithVerdict(s.script, verdict))])
  }

  function KeyedStep(cfg: Config, off: Offline, k: KeyedDaemon, m: KeyedMove): (after: KeyedDaemon)
    ensures after.daemon.sessions.Keys == k.daemon.sessions.Keys
  {
    match m
    case Refreshes(fetch) => k.(events := k.events + [Refreshed(fetch)])
    case Steps(move) =>
      if move.sid in k.daemon.sessions && IsDue(k.daemon.sessions[move.sid]) then
        var token := k.daemon.sessions[move.sid].phase.init.token.value;
        var verdict := Verdict(off, k.events, token);
        KeyedDaemon(Step(cfg, Amend(k.daemon, move.sid, verdict), move),
                    k.events + [Presented(off.decode(token))], k.judged[move.sid := |k.events|])
      else k.(daemon := Step(cfg, k.daemon, move))
  }

  function KeyedRun(cfg: Config, off: Offline, scripts: map<nat, Script>, moves: seq<KeyedMove>): (after: KeyedDaemon)
    ensures after.daemon.sessions.Keys == scripts.Keys
  {
    if moves == [] then KeyedDaemon(Boot(scripts), [], map[])
    else KeyedStep(cfg, off, KeyedRun(cfg, off, scripts, moves[..|moves| - 1]), moves[|moves| - 1])
  }

  // -- Every keyed run is a run -----------------------------------------------------------------

  /** The session steps alone. */
  function SessionMoves(moves: seq<KeyedMove>): seq<Move> {
    if moves == [] then []
    else SessionMoves(moves[..|moves| - 1])
         + (match moves[|moves| - 1] case Steps(move) => [move] case Refreshes(_) => [])
  }

  /** The scripts with the verdicts that the run gave. */
  function Settled(d: Daemon): map<nat, Script> {
    map sid | sid in d.sessions :: d.sessions[sid].script
  }

  predicate Unjudged(s: Session) {
    s.phase.Start? || s.phase.Opening?
  }

  /** Until a session is judged its verdict is not looked at. */
  lemma StartIgnoresVerdict(cfg: Config, s: Session, w: World, now: nat, verdict: Result<(), string>)
    requires s.phase.Start?
    ensures Advance(cfg, s.(script := WithVerdict(s.script, verdict)), w, now)
      == Advance(cfg, s, w, now).(script := WithVerdict(s.script, verdict))
  {
  }

  lemma JudgedStaysJudged(cfg: Config, s: Session, w: World, now: nat)
    ensures Unjudged(Advance(cfg, s, w, now)) ==> s.phase.Start? && Advance(cfg, s, w, now).log == s.log
  {
    if IsQuiet(s.phase) {
      QuietStepsAreQuiet(cfg, s, w, now);
    }
  }

  lemma AmendedStep(cfg: Config, d: Daemon, m: Move, sid: nat, verdict: Result<(), string>)
    requires sid in d.sessions && Unjudged(Step(cfg, d, m).sessions[sid])
    ensures Unjudged(d.sessions[sid])
    ensures Step(cfg, Amend(d, sid, verdict), m) == Amend(Step(cfg, d, m), sid, verdict)
  {
    if m.sid == sid {
      JudgedStaysJudged(cfg, d.sessions[sid], World(d.failures, d.log), m.now);
      StartIgnoresVerdict(cfg, d.sessions[sid], World(d.failures, d.log), m.now, verdict);
    } else if m.sid in d.sessions {
      assert Amend(d, sid, verdict).sessions[m.sid] == d.sessions[m.sid];
      assert Step(cfg, d, m).sessions[sid] == d.sessions[sid];
    }
  }

  lemma {:induction false} AmendedRun(cfg: Config, scripts: map<nat, Script>, moves: seq<Move>, sid: nat, verdict: Result<(), string>)
    requires sid in scripts && Unjudged(After(cfg, scripts, moves, sid))
    ensures Run(cfg, Boot(scripts[sid := WithVerdict(scripts[sid], verdict)]), moves)
      == Amend(Run(cfg, Boot(scripts), moves), sid, verdict)
    decreases |moves|
  {
    var amended := scripts[sid := WithVerdict(scripts[sid], verdict)];
    if moves == [] {
      assert Boot(amended).sessions == Amend(Boot(scripts), sid, verdict).sessions;
    } else {
      var before, m := moves[..|moves| - 1], moves[|moves| - 1];
      AmendedStep(cfg, Run(cfg, Boot(scripts), before), m, sid, verdict);
      AmendedRun(cfg, scripts, before, sid, verdict);
    }
  }

  lemma StepKeepsScripts(cfg: Config, d: Daemon, m: Move)
    ensures Settled(Step(cfg, d, m)) == Settled(d)
  {
  }

  lemma AmendSettles(d: Daemon, sid: nat, verdict: Result<(), string>)
    requires sid in d.sessions
    ensures Settled(Amend(d, sid, verdict)) == Settled(d)[sid := WithVerdict(d.sessions[sid].script, verdict)]
  {
  }

  /** A judgement and the step after it, as one more step of a run under the amended script. */
  lemma AmendedStepIsAStep(cfg: Config, d: Daemon, plain: seq<Move>, move: Move, verdict: Result<(), string>)
    requires d == Run(cfg, Boot(Settled(d)), plain)
    requires move.sid in d.sessions && Unjudged(d.sessions[move.sid])
    ensures var after := Step(cfg, Amend(d, move.sid, verdict), move);
      after == Run(cfg, Boot(Settled(after)), plain + [move])
  {
    assert (plain + [move])[..|plain|] == plain;
    AmendSettles(d, move.sid, verdict);
    AmendedRun(cfg, Settled(d), plain, move.sid, verdict);
    StepKeepsScripts(cfg, Amend(d, move.sid, verdict), move);
  }

  /** Every run of the daemon with its keys is a run of the daemon under scripts that hold the verdicts the
      keys gave; so everything proved of all runs holds of it. */
  lemma {:induction false} KeyedRunsAreRuns(cfg: Config, off: Offline, scripts: map<nat, Script>, moves: seq<KeyedMove>)
    ensures var k := KeyedRun(cfg, off, scripts, moves);
      k.daemon == Run(cfg, Boot(Settled(k.daemon)), SessionMoves(moves))
    decreases |moves|
  {
    if moves == [] {
      assert Settled(Boot(scripts)) == scripts;
    } else {
      var before, m := moves[..|moves| - 1], moves[|moves| - 1];
      var k := KeyedRun(cfg, off, scripts, before);
      KeyedRunsAreRuns(cfg, off, scripts, before);
      if m.Steps? {
        var plain := SessionMoves(before);
        assert (plain + [m.move])[..|plain|] == plain;
        if m.move.sid in k.daemon.sessions && IsDue(k.daemon.sessions[m.move.sid]) {
          var verdict := Verdict(off, k.events, k.daemon.sessions[m.move.sid].phase.init.token.value);
          AmendedStepIsAStep(cfg, k.daemon, plain, m.move, verdict);
        } else {
          StepKeepsScripts(cfg, k.daemon, m.move);
        }
      } else {
        assert SessionMoves(moves) == SessionMoves(before);
      }
    }
  }

  // -- Who is let in ------------------------------------------------------------------------------

  /** Only the verdict of a script was ever touched; a judged session holds the verdict of the keys as they
      stood at that moment; and no service-account session with a token gets past the opening unjudged. */
  ghost predicate Judged(off: Offline, script: Script, s: Session, events: seq<Event>, judged: map<nat, nat>, sid: nat) {
    && s.script == WithVerdict(script, s.script.verdict)
    && (s.phase.Opening? ==> script.first == Some(InitFrame(s.phase.init)))
    && (sid in judged ==> !Unjudged(s) && TokenOf(script).Some? && JudgedBy(off, s.script.verdict, TokenOf(script).value, events, judged[sid]))
    && (script.authenticator.ServiceAccount? && TokenOf(script).Some? && !Unjudged(s) ==> sid in judged)
  }

  function TokenOf(script: Script): Option<string> {
    if script.first.Some? && script.first.value.InitFrame? then script.first.value.init.token else None
  }

  ghost predicate JudgedBy(off: Offline, verdict: Result<(), string>, token: string, events: seq<Event>, n: nat) {
    n <= |events| && verdict == Verdict(off, events[..n], token)
  }

  lemma JudgementStands(off: Offline, verdict: Result<(), string>, token: string, events: seq<Event>, more: seq<Event>, n: nat)
    requires JudgedBy(off, verdict, token, events, n)
    ensures JudgedBy(off, verdict, token, events + more, n)
  {
    assert (events + more)[..n] == events[..n];
  }

  /** A session nobody touches stays as judged as it is, whatever happens to the keys. */
  lemma StaysJudged(off: Offline, script: Script, s: Session, events: seq<Event>, more: seq<Event>,
                    judged: map<nat, nat>, after: map<nat, nat>, sid: nat)
    requires Judged(off, script, s, events, judged, sid)
    requires (sid in after <==> sid in judged) && (sid in judged ==> after[sid] == judged[sid])
    ensures Judged(off, script, s, events + more, after, sid)
  {
    if sid in judged {
      JudgementStands(off, s.script.verdict, TokenOf(script).value, events, more, judged[sid]);
    }
  }

  /** How the opening phases follow one another. */
  lemma OpeningOrder(cfg: Config, s: Session, w: World, now: nat)
    ensures var next := Advance(cfg, s, w, now);
      && next.script == s.script
      && (next.phase.Opening? ==> s.phase.Start? && s.script.first == Some(InitFrame(next.phase.init)))
      && (!Unjudged(s) ==> !Unjudged(next))
      && (s.phase.Opening? ==> !Unjudged(next))
      && (s.phase.Start? && !Unjudged(next) ==> TokenOf(s.script).None?)
  {
    if !Unjudged(s) {
      JudgedStaysJudged(cfg, s, w, now);
    }
  }

  /** A step without judgement. */
  lemma PlainStepJudged(cfg: Config, off: Offline, script: Script, s: Session, w: World, now: nat,
                        events: seq<Event>, judged: map<nat, nat>, sid: nat)
    requires Judged(off, script, s, events, judged, sid) && !IsDue(s)
    ensures Judged(off, script, Advance(cfg, s, w, now), events, judged, sid)
  {
    OpeningOrder(cfg, s, w, now);
  }

  /** A step with judgement. */
  lemma DueStepJudged(cfg: Config, off: Offline, script: Script, s: Session, w: World, now: nat,
                      events: seq<Event>, more: seq<Event>, judged: map<nat, nat>, sid: nat)
    requires Judged(off, script, s, events, judged, sid) && IsDue(s)
    ensures var verdict := Verdict(off, events, s.phase.init.token.value);
      Judged(off, script, Advance(cfg, s.(script := WithVerdict(s.script, verdict)), w, now),
             events + more, judged[sid := |events|], sid)
  {
    var verdict := Verdict(off, events, s.phase.init.token.value);
    var t := s.(script := WithVerdict(s.script, verdict));
    OpeningOrder(cfg, t, w, now);
    assert events[..|events|] == events;
    JudgementStands(off, verdict, s.phase.init.token.value, events, more, |events|);
  }

  ghost predicate AllJudged(off: Offline, scripts: map<nat, Script>, k: KeyedDaemon) {
    && k.daemon.sessions.Keys == scripts.Keys
    && forall sid :: sid in scripts ==> Judged(off, scripts[sid], k.daemon.sessions[sid], k.events, k.judged, sid)
  }

  lemma KeyedStepJudges(cfg: Config, off: Offline, scripts: map<nat, Script>, k: KeyedDaemon, m: KeyedMove)
    requires AllJudged(off, scripts, k)
    ensures AllJudged(off, scripts, KeyedStep(cfg, off, k, m))
  {
    var after := KeyedStep(cfg, off, k, m);
    forall sid | sid in scripts
      ensures Judged(off, scripts[sid], after.daemon.sessions[sid], after.events, after.judged, sid)
    {
      var s := k.daemon.sessions[sid];
      var w := World(k.daemon.failures, k.daemon.log);
      if m.Steps? && m.move.sid == sid {
        if IsDue(s) {
          DueStepJudged(cfg, off, scripts[sid], s, w, m.move.now, k.events,
                        [Presented(off.decode(s.phase.init.token.value))], k.judged, sid);
        } else {
          PlainStepJudged(cfg, off, scripts[sid], s, w, m.move.now, k.events, k.judged, sid);
        }
      } else {
        assert after.daemon.sessions[sid] == s;
        assert after.events == k.events + after.events[|k.events|..];
        StaysJudged(off, scripts[sid], s, k.events, after.events[|k.events|..], k.judged, after.judged, sid);
      }
    }
  }

  lemma {:induction false} KeyedRunJudges(cfg: Config, off: Offline, scripts: map<nat, Script>, moves: seq<KeyedMove>)
    ensures AllJudged(off, scripts, KeyedRun(cfg, off, scripts, moves))
    decreases |moves|
  {
    if moves != [] {
      KeyedRunJudges(cfg, off, scripts, moves[..|moves| - 1]);
      KeyedStepJudges(cfg, off, scripts, KeyedRun(cfg, off, scripts, moves[..|moves| - 1]), moves[|moves| - 1]);
    }
  }

  /** What a session did in a run with keys. */
  function KeyedDeeds(cfg: Config, off: Offline, scripts: map<nat, Script>, moves: seq<KeyedMove>, sid: nat): seq<Effect> {
    Project(KeyedRun(cfg, off, scripts, moves).daemon.log, sid)
  }

  lemma KeyedRunIsSound(cfg: Config, off: Offline, scripts: map<nat, Script>, moves: seq<KeyedMove>, sid: nat)
    requires sid in scripts
    ensures var s := KeyedRun(cfg, off, scripts, moves).daemon.sessions[sid];
      && Sound(cfg, s.script, s)
      && KeyedDeeds(cfg, off, scripts, moves, sid) == s.log
  {
    var k := KeyedRun(cfg, off, scripts, moves);
    KeyedRunsAreRuns(cfg, off, scripts, moves);
    RunKeepsInv(cfg, Settled(k.daemon), SessionMoves(moves));
  }

  /** The last successful fetch had a last usable key, under the token's key id, that validates the token. */
  ghost predicate ValidatedBy(off: Offline, events: seq<Event>, presented: string) {
    exists r: nat, i: nat :: ValidUnder(off.check, events, off.decode(presented), r, i)
  }

  lemma VerdictFollowsKeys(off: Offline, verdict: Result<(), string>, token: string, events: seq<Event>, n: nat)
    requires JudgedBy(off, verdict, token, events, n)
    ensures verdict.Ok? <==> ValidatedBy(off, events[..n], token)
  {
    AcceptedIffValid(off.check, events[..n], off.decode(token));
  }

  /** A session that has been judged: its first deed is the judgement, and it was good if and only if there
      was a token and the keys said so. */
  lemma JudgementIsTheVerdict(off: Offline, script: Script, s: Session, events: seq<Event>, judged: map<nat, nat>, sid: nat)
    requires Judged(off, script, s, events, judged, sid) && AuthStory(s)
    requires script.authenticator.ServiceAccount? && s.log != []
    ensures TokenOf(script).Some? ==> sid in judged && JudgedBy(off, s.script.verdict, TokenOf(script).value, events, judged[sid])
    ensures Accepted(s.script) <==> TokenOf(script).Some? && s.script.verdict.Ok?
    ensures s.log[0] == Authenticated(Accepted(s.script))
    ensures Authenticated(true) in s.log <==> Accepted(s.script)
  {
    StoryTrustsFirst(s);
    assert !Unjudged(s);
    LetInIsAuthenticated(s.script.authenticator, TokenOf(script), s.script.verdict);
    assert s.script.first == script.first;
  }

  /** In every run, a service-account session that has been judged is accepted if and only if it presented a
      token and the keys, as they stood at that moment, validate it: some fetch had succeeded, and the last
      usable key of the last one that had, under the token's key id, is good for the token. */
  lemma AcceptedIffTheKeysSaySo(cfg: Config, off: Offline, scripts: map<nat, Script>, moves: seq<KeyedMove>, sid: nat)
    requires sid in scripts && scripts[sid].authenticator.ServiceAccount?
    requires KeyedDeeds(cfg, off, scripts, moves, sid) != []
    ensures var k, token := KeyedRun(cfg, off, scripts, moves), TokenOf(scripts[sid]);
      && (token.Some? ==> sid in k.judged && k.judged[sid] <= |k.events|)
      && var good := token.Some? && ValidatedBy(off, k.events[..k.judged[sid]], token.value);
      && (Authenticated(true) in KeyedDeeds(cfg, off, scripts, moves, sid) <==> good)
      && KeyedDeeds(cfg, off, scripts, moves, sid)[0] == Authenticated(good)
  {
    var k := KeyedRun(cfg, off, scripts, moves);
    var s, token := k.daemon.sessions[sid], TokenOf(scripts[sid]);
    KeyedRunIsSound(cfg, off, scripts, moves, sid);
    KeyedRunJudges(cfg, off, scripts, moves);
    JudgementIsTheVerdict(off, scripts[sid], s, k.events, k.judged, sid);
    if token.Some? {
      VerdictFollowsKeys(off, s.script.verdict, token.value, k.events, k.judged[sid]);
    }
  }

  lemma {:induction false} FetchesAreEvents(cfg: Config, off: Offline, scripts: map<nat, Script>, moves: seq<KeyedMove>)
    requires forall i :: 0 <= i < |moves| && moves[i].Refreshes? ==> moves[i].fetch.Err?
    ensures NeverFetched(KeyedRun(cfg, off, scripts, moves).events)
    decreases |moves|
  {
    if moves != [] {
      FetchesAreEvents(cfg, off, scripts, moves[..|moves| - 1]);
    }
  }

  /** Fail-closed, over whole runs: as long as no fetch of the keys has succeeded, no service-account session
      is accepted - it is judged and counted, and nothing is looked up, built, connected or dispatched. */
  lemma NobodyBeforeTheFirstFetch(cfg: Config, off: Offline, scripts: map<nat, Script>, moves: seq<KeyedMove>, sid: nat)
    requires sid in scripts && scripts[sid].authenticator.ServiceAccount?
    requires forall i :: 0 <= i < |moves| && moves[i].Refreshes? ==> moves[i].fetch.Err?
    ensures TrustFirst(false, KeyedDeeds(cfg, off, scripts, moves, sid))
  {
    var k := KeyedRun(cfg, off, scripts, moves);
    KeyedRunIsSound(cfg, off, scripts, moves, sid);
    StoryTrustsFirst(k.daemon.sessions[sid]);
    var log := KeyedDeeds(cfg, off, scripts, moves, sid);
    if log != [] {
      FetchesAreEvents(cfg, off, scripts, moves);
      AcceptedIffTheKeysSaySo(cfg, off, scripts, moves, sid);
    }
  }
}
