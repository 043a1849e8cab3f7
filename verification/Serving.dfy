/** A session served start to finish by one thread of control (crates/fabricd/src/main.rs, `serve`),
    in the source's own imperative form, over the shared object and a backend set of its own. */
module Serving {
  import opened Wire
  import opened Resources
  import opened ClientAuth
  import opened SessionSpec
  import opened Ledger
  import opened DeedSpec
  import opened Backends
  import opened Exposure

  /** Writes one frame unless the writer is broken. */
  method Send(writable: Option<nat>, written: seq<Response>, response: Response)
    returns (ok: bool, after: seq<Response>)
    ensures ok <==> writable != Some(|written|)
    ensures after == if ok then written + [response] else written
  {
    ok := writable != Some(|written|);
    after := if ok then written + [response] else written;
  }

  /** A session whose log started at `start` has said and done exactly what is prescribed, and heard the
      breaker's own decisions. */
  ghost predicate Exactly(cfg: Config, sid: nat, script: Script, allow: bool, total: nat, start: seq<Entry>,
                          log: seq<Entry>, written: seq<Response>, now: nat)
  {
    && written == Delivered(Trace(cfg.Ground(), script, allow), script.writable)
    && log == start + Stamp(sid, Prescribed(cfg.Ground(), script, allow, total, Served(script)))
    && Honest(cfg.policy, log, |start|, now)
  }

  /** Serves a session. Exactly the prescribed conversation is written, as far as the writer lasts;
      exactly the prescribed effects take place, in order; the failure counter moves exactly when the
      client is rejected. Every answer of the breaker that the session leaves in the log is the policy's own
      decision on the log up to there; `allow` is that answer, if the session asked. */
  method Serve(sid: nat, script: Script, shared: Shared, now: nat)
    returns (written: seq<Response>, ghost allow: bool)
    modifies shared
    ensures Exactly(shared.config, sid, script, allow, TotalAfter(old(shared.failures)), old(shared.log), shared.log, written, now)
    ensures shared.failures == if Rejects(script) then Bump(old(shared.failures)) else old(shared.failures)
  {
    allow, written := true, [];
    if script.first.None? {
      return;
    }
    if !script.first.value.InitFrame? {
      var ok;
      ok, written := Send(script.writable, written, ProtocolError("expected Init as the first frame"));
      return;
    }
    var verdict := Authenticate(script.authenticator, script.first.value.init.token, script.verdict);
    if verdict.Err? {
      written := TurnAway(sid, script, verdict.error, shared, now);
    } else {
      written, allow := Admit(sid, script, script.first.value.init, shared, now);
    }
  }

  /** So the one answer on which an exposed session's conversation hinges is the policy's decision, on the
      shared log at the moment of asking, about the session's own endpoint. */
  lemma AnswerIsThePolicys(cfg: Config, sid: nat, script: Script, allow: bool, total: nat, start: seq<Entry>,
                           log: seq<Entry>, written: seq<Response>, now: nat) returns (k: nat)
    requires Exactly(cfg, sid, script, allow, total, start, log, written, now)
    requires Exposed(cfg.Ground(), script, Served(script))
    ensures |start| <= k < |log| && log[k] == Entry(sid, Asked(TargetOf(cfg.Ground(), script), allow))
    ensures allow == cfg.policy.value(log[..k], TargetOf(cfg.Ground(), script), now)
  {
    var deeds, asked := Prescribed(cfg.Ground(), script, allow, total, Served(script)), Asked(TargetOf(cfg.Ground(), script), allow);
    ExposedAsks(cfg.Ground(), script, allow, total, Served(script));
    var j :| 0 <= j < |deeds| && deeds[j] == asked;
    k := |start| + j;
    StampedAt(sid, start, deeds, j);
    Honestly(cfg.policy, log, |start|, k, now);
  }

  lemma StampedAt(sid: nat, start: seq<Entry>, deeds: seq<Effect>, j: nat)
    requires j < |deeds|
    ensures (start + Stamp(sid, deeds))[|start| + j] == Entry(sid, deeds[j])
  {
  }

  lemma Honestly(policy: Option<Policy>, log: seq<Entry>, since: nat, k: nat, now: nat)
    requires Honest(policy, log, since, now) && since <= k < |log| && log[k].effect.Asked?
    ensures policy.Some? && policy.value(log[..k], log[k].effect.target, now) == log[k].effect.allowed
  {
  }

  /** Counts and reports a rejected client. */
  method TurnAway(sid: nat, script: Script, reject: Reject, shared: Shared, ghost now: nat)
    returns (written: seq<Response>)
    requires script.first.Some? && script.first.value.InitFrame?
    requires Authenticate(script.authenticator, script.first.value.init.token, script.verdict) == Err(reject)
    modifies shared
    ensures forall allow ::
      Exactly(shared.config, sid, script, allow, TotalAfter(old(shared.failures)), old(shared.log), shared.log, written, now)
    ensures shared.failures == Bump(old(shared.failures))
  {
    ghost var start := shared.log;
    shared.Note(sid, Authenticated(false));
    var total := shared.RecordAuthFailure(sid);
    var ok;
    ok, written := Send(script.writable, [], InitError(reject.code, reject.message));
    assert shared.log == start + Stamp(sid, [Authenticated(false), Rejected(total)]);
  }

  /** Resolves, builds and serves an accepted client. */
  method Admit(sid: nat, script: Script, init: Init, shared: Shared, now: nat)
    returns (written: seq<Response>, ghost allow: bool)
    requires script.first == Some(InitFrame(init))
    requires Authenticate(script.authenticator, init.token, script.verdict).Ok?
    modifies shared
    ensures Exactly(shared.config, sid, script, allow, TotalAfter(old(shared.failures)), old(shared.log), shared.log, written, now)
    ensures shared.failures == old(shared.failures)
  {
    ghost var start := shared.log;
    allow := true;
    shared.Note(sid, Authenticated(true));
    var resolution := Resolve(shared.config.table, init);
    shared.Note(sid, LookedUp);
    var ok;
    if resolution.Err? {
      ok, written := Send(script.writable, [], InitError(resolution.error.Code(), resolution.error.Message()));
      assert shared.log == start + Stamp(sid, [Authenticated(true), LookedUp]);
      return;
    }
    written, allow := Entertain(sid, script, Clamp(resolution.value, shared.config.ceilingMs), shared, now, start);
  }

  /** Builds the backends of an opened session, acknowledges it and converses. */
  method Entertain(sid: nat, script: Script, configs: Resolved, shared: Shared, now: nat, ghost start: seq<Entry>)
    returns (written: seq<Response>, ghost allow: bool)
    requires Open(shared.config.Ground(), script) == Opened(configs)
    requires shared.log == start + [Entry(sid, Authenticated(true))] + [Entry(sid, LookedUp)]
    modifies shared
    ensures forall total :: Exactly(shared.config, sid, script, allow, total, start, shared.log, written, now)
    ensures shared.failures == old(shared.failures)
  {
    allow := true;
    var backends := new BackendSet(sid, configs, shared.config.codec, |start|);
    shared.Note(sid, Built);
    var ok;
    ok, written := Send(script.writable, [], Ack);
    if ok {
      written, allow := Converse(script.exchanges, script.writable, backends, shared, now);
    }
    OpeningIsLogged(sid, start, backends.ViewFor(shared.config.policy.Some?, allow), script);
  }

  /** Opening and the requests served make up the prescribed effects. */
  lemma OpeningIsLogged(sid: nat, start: seq<Entry>, v: View, script: Script)
    ensures var doings := Doings(v, script.exchanges[..Served(script)]);
      start + [Entry(sid, Authenticated(true))] + [Entry(sid, LookedUp)] + [Entry(sid, Built)] + Stamp(sid, doings)
        == start + Stamp(sid, PROLOGUE + doings)
  {
    StampAppend(sid, PROLOGUE, Doings(v, script.exchanges[..Served(script)]));
  }

  ghost predicate Rejects(script: Script) {
    && script.first.Some? && script.first.value.InitFrame?
    && Authenticate(script.authenticator, script.first.value.init.token, script.verdict).Err?
  }

  /** Answers one request of an open session. */
  method Respond(x: Exchange, backends: BackendSet, shared: Shared, now: nat) returns (response: Response)
    requires backends.Valid(shared.config.policy.Some?)
    requires backends.Heeds(shared, now)
    modifies backends, shared`log
    ensures backends.Heeds(shared, now)
    ensures backends.Valid(shared.config.policy.Some?) && backends.past == old(backends.past) + [x]
    ensures old(backends.asked).Some? ==> backends.asked == old(backends.asked)
    ensures forall a :: backends.Possible(a) ==>
      response == Answer(backends.ViewFor(shared.config.policy.Some?, a), old(backends.past), x)
    ensures forall a :: backends.Possible(a) ==>
      shared.log == old(shared.log)
        + Stamp(backends.sid, DeedsOf(backends.ViewFor(shared.config.policy.Some?, a), old(backends.past), x))
  {
    ghost var guarded := shared.config.policy.Some?;
    match x.request {
      case CallFrame(_) =>
        var result := backends.Call(x, shared, now);
        response := Reply(result);
      case DrainFrame =>
        var metrics := backends.DrainMetrics(guarded);
        response := Metrics(metrics);
        backends.Pass(x, guarded);
      case InitFrame(_) =>
        response := ProtocolError("Init already received for this session");
        backends.Pass(x, guarded);
    }
  }

  /** What was written agrees with the first `said` requests under every answer still possible, and
      since `start` the shared log has grown by the effects of the first `i`. */
  ghost predicate UpTo(backends: BackendSet, guarded: bool, xs: seq<Exchange>, said: nat, i: nat,
                       written: seq<Response>, start: seq<Entry>, log: seq<Entry>)
    reads backends
  {
    forall a :: backends.Possible(a) ==>
      && Spoken(backends.ViewFor(guarded, a), xs, said, written)
      && Logged(backends.sid, backends.ViewFor(guarded, a), xs, i, start, log)
  }

  ghost predicate Logged(sid: nat, v: View, xs: seq<Exchange>, i: nat, start: seq<Entry>, log: seq<Entry>) {
    i <= |xs| && log == start + Stamp(sid, Doings(v, xs[..i]))
  }

  lemma NothingYet(sid: nat, v: View, xs: seq<Exchange>, start: seq<Entry>)
    ensures Spoken(v, xs, 0, [Ack]) && Logged(sid, v, xs, 0, start, start)
  {
  }

  lemma LogOn(sid: nat, v: View, xs: seq<Exchange>, i: nat, start: seq<Entry>, log: seq<Entry>)
    requires i < |xs| && Logged(sid, v, xs, i, start, log)
    ensures Logged(sid, v, xs, i + 1, start, log + Stamp(sid, DeedsOf(v, xs[..i], xs[i])))
  {
    DoingsSnoc(v, xs, i);
    StampTwice(sid, start, Doings(v, xs[..i]), DeedsOf(v, xs[..i], xs[i]));
  }

  /** One turn of the loop: read, answer, write. */
  method Turn(xs: seq<Exchange>, i: nat, writable: Option<nat>, written: seq<Response>,
              backends: BackendSet, shared: Shared, now: nat, ghost start: seq<Entry>)
    returns (ok: bool, after: seq<Response>)
    requires i < |xs| && backends.past == xs[..i]
    requires backends.Valid(shared.config.policy.Some?)
    requires UpTo(backends, shared.config.policy.Some?, xs, i, i, written, start, shared.log)
    requires backends.Heeds(shared, now)
    modifies backends, shared`log
    ensures backends.Heeds(shared, now)
    ensures backends.past == xs[..i + 1] && backends.Valid(shared.config.policy.Some?)
    ensures ok <==> writable != Some(|written|)
    ensures |after| == (if ok then |written| + 1 else |written|)
    ensures UpTo(backends, shared.config.policy.Some?, xs, if ok then i + 1 else i, i + 1, after, start, shared.log)
  {
    ghost var guarded := shared.config.policy.Some?;
    ghost var heard := shared.log;
    var response := Respond(xs[i], backends, shared, now);
    assert xs[..i + 1] == xs[..i] + [xs[i]];
    ok, after := Send(writable, written, response);
    forall a | backends.Possible(a)
      ensures Spoken(backends.ViewFor(guarded, a), xs, if ok then i + 1 else i, after)
      ensures Logged(backends.sid, backends.ViewFor(guarded, a), xs, i + 1, start, shared.log)
    {
      SpeakOn(backends.ViewFor(guarded, a), xs, i, written, response);
      LogOn(backends.sid, backends.ViewFor(guarded, a), xs, i, start, heard);
    }
  }

  /** The request loop of an open session. */
  method Converse(xs: seq<Exchange>, writable: Option<nat>, backends: BackendSet, shared: Shared, now: nat)
    returns (written: seq<Response>, ghost allow: bool)
    requires backends.past == [] && backends.asked.None? && backends.Valid(shared.config.policy.Some?)
    requires writable != Some(0)
    requires backends.Heeds(shared, now)
    modifies backends, shared`log
    ensures backends.Heeds(shared, now)
    ensures written == Delivered([Ack] + Answers(backends.ViewFor(shared.config.policy.Some?, allow), xs), writable)
    ensures Logged(backends.sid, backends.ViewFor(shared.config.policy.Some?, allow), xs,
      Reach(writable, |xs|), old(shared.log), shared.log)
  {
    ghost var guarded, start := shared.config.policy.Some?, shared.log;
    forall a
      ensures Spoken(backends.ViewFor(guarded, a), xs, 0, [Ack])
      ensures Logged(backends.sid, backends.ViewFor(guarded, a), xs, 0, start, start)
    {
      NothingYet(backends.sid, backends.ViewFor(guarded, a), xs, start);
    }
    ghost var said;
    written, said := AnswerAll(xs, writable, backends, shared, now, start);
    allow := if backends.asked.Some? then backends.asked.value else true;
    Finish(backends.ViewFor(guarded, allow), xs, said, written, writable);
  }

  /** Reads and answers until the stream ends or the writer breaks; `said` answers got through. */
  method AnswerAll(xs: seq<Exchange>, writable: Option<nat>, backends: BackendSet, shared: Shared, now: nat,
                   ghost start: seq<Entry>) returns (written: seq<Response>, ghost said: nat)
    requires backends.past == [] && backends.Valid(shared.config.policy.Some?)
    requires UpTo(backends, shared.config.policy.Some?, xs, 0, 0, [Ack], start, shared.log)
    requires writable != Some(0)
    requires backends.Heeds(shared, now)
    modifies backends, shared`log
    ensures backends.Heeds(shared, now)
    ensures UpTo(backends, shared.config.policy.Some?, xs, said, Reach(writable, |xs|), written, start, shared.log)
    ensures said < |xs| ==> writable == Some(said + 1)
    ensures writable.Some? ==> writable.value > said
  {
    ghost var guarded := shared.config.policy.Some?;
    written, said := [Ack], 0;
    var i, ok := 0, true;
    while ok && i < |xs|
      invariant 0 <= i <= |xs| && backends.past == xs[..i] && backends.Valid(guarded)
      invariant backends.Heeds(shared, now)
      invariant Paced(ok, i, said, |written|, writable)
      invariant UpTo(backends, guarded, xs, said, i, written, start, shared.log)
      decreases |xs| - i
    {
      ok, written := Turn(xs, i, writable, written, backends, shared, now, start);
      i := i + 1;
      if ok {
        said := i;
      }
    }
    PacedToTheEnd(ok, i, said, |written|, writable, |xs|);
  }

  /** After `i` requests `said` answers have got through besides `Ack`: all, or all but the last. */
  ghost predicate Paced(ok: bool, i: nat, said: nat, written: nat, writable: Option<nat>) {
    && written == said + 1
    && i == (if ok then said else said + 1)
    && (writable.Some? ==> writable.value >= written)
    && (!ok ==> writable == Some(written))
  }

  lemma PacedToTheEnd(ok: bool, i: nat, said: nat, written: nat, writable: Option<nat>, n: nat)
    requires Paced(ok, i, said, written, writable) && i <= n && (ok ==> i == n)
    ensures i == Reach(writable, n)
    ensures said < n ==> writable == Some(said + 1)
    ensures writable.Some? ==> writable.value > said
  {
  }

  /** Ending after all answers, or where the writer broke, delivers what it should. */
  lemma Finish(v: View, xs: seq<Exchange>, i: nat, written: seq<Response>, writable: Option<nat>)
    requires Spoken(v, xs, i, written)
    requires i < |xs| ==> writable == Some(i + 1)
    requires writable.Some? ==> writable.value > i
    ensures written == Delivered([Ack] + Answers(v, xs), writable)
  {
    if i < |xs| {
      CutShort(v, xs, i, writable);
    } else {
      assert xs[..i] == xs;
    }
  }

  /** The first `i` requests have been acknowledged and answered. */
  ghost predicate Spoken(v: View, xs: seq<Exchange>, i: nat, written: seq<Response>) {
    i <= |xs| && written == [Ack] + Answers(v, xs[..i])
  }

  lemma SpeakOn(v: View, xs: seq<Exchange>, i: nat, written: seq<Response>, response: Response)
    requires i < |xs| && Spoken(v, xs, i, written) && response == Answer(v, xs[..i], xs[i])
    ensures Spoken(v, xs, i + 1, written + [response])
  {
    AnswersSnoc(v, xs, i);
  }

  /** Breaking off after `i` answers delivers exactly those. */
  lemma CutShort(v: View, xs: seq<Exchange>, i: nat, writable: Option<nat>)
    requires i < |xs| && writable == Some(i + 1)
    ensures Delivered([Ack] + Answers(v, xs), writable) == [Ack] + Answers(v, xs[..i])
  {
    forall j | 0 <= j < i ensures xs[..i][..j] == xs[..j] {
    }
  }
}
