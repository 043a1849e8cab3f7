/** When the shared breaker can be felt. A session hears from it at most once, about its first db call;
    here is exactly when that one answer changes what the session says and does. */
module Exposure {
  import opened Wire
  import opened Resources
  import opened SessionSpec
  import opened Ledger
  import opened DeedSpec

  /** Among its first `n` requests an open session calls a db that is wired and behind a breaker. */
  ghost predicate Exposed(g: Ground, script: Script, n: nat)
    requires n <= |script.exchanges|
  {
    && g.guarded && Open(g, script).Opened? && Open(g, script).configs.db.Some?
    && exists i :: 0 <= i < n && Calls(script.exchanges[i], Db)
  }

  /** How many answers get through: one fewer than the writer lasts, since `Ack` comes first. */
  function Replied(script: Script): (n: nat)
    ensures n <= |script.exchanges|
  {
    if script.writable.None? then |script.exchanges|
    else if script.writable.value == 0 then 0
    else Reach(Some(script.writable.value - 1), |script.exchanges|)
  }

  // -- Requests that cannot tell ----------------------------------------------------

  /** The breaker's answer has not been asked for. */
  ghost predicate Unasked(v: View, xs: seq<Exchange>) {
    !v.guarded || v.configs.db.None? || FirstCall(Db, xs).None?
  }

  /** Two views that differ in the breaker's answer at most. */
  ghost predicate Twins(v: View, u: View) {
    u == v.(allow := u.allow)
  }

  lemma UnaskedBefore(v: View, past: seq<Exchange>, x: Exchange)
    requires Unasked(v, past + [x])
    ensures Unasked(v, past)
    ensures v.guarded && v.configs.db.Some? ==> !Calls(x, Db)
  {
    FirstCallSnoc(Db, past, x);
  }

  lemma ConnectionsIgnore(v: View, u: View, kind: Kind, xs: seq<Exchange>)
    requires Twins(v, u) && (kind != Db || !v.guarded)
    ensures Connection(v, kind, xs) == Connection(u, kind, xs)
  {
  }

  /** The history of a kind is the same under either answer, unless it is that of the guarded db. */
  lemma {:induction false} HistoryIgnores(v: View, u: View, kind: Kind, xs: seq<Exchange>)
    requires Twins(v, u) && (kind != Db || Unasked(v, xs))
    ensures History(v, kind, xs) == History(u, kind, xs)
    decreases |xs|
  {
    if xs != [] {
      var past, x := xs[..|xs| - 1], xs[|xs| - 1];
      assert xs == past + [x];
      if kind == Db {
        UnaskedBefore(v, past, x);
      }
      HistoryIgnores(v, u, kind, past);
      if Calls(x, kind) {
        ReachedIgnores(v, u, past, x, kind);
      }
    }
  }

  lemma ReachedIgnores(v: View, u: View, past: seq<Exchange>, x: Exchange, kind: Kind)
    requires Twins(v, u) && Calls(x, kind) && (kind != Db || !v.guarded || v.configs.db.None?)
    requires History(v, kind, past) == History(u, kind, past)
    ensures Reached(v, past, x) == Reached(u, past, x)
  {
    if kind != Db || !v.guarded {
      ConnectionsIgnore(v, u, kind, past + [x]);
    }
  }

  /** A request up to which nothing was asked is answered the same under either answer. */
  lemma AnswerIgnores(v: View, u: View, past: seq<Exchange>, x: Exchange)
    requires Twins(v, u) && Unasked(v, past + [x])
    ensures Answer(v, past, x) == Answer(u, past, x)
  {
    UnaskedBefore(v, past, x);
    match x.request
    case InitFrame(_) =>
    case DrainFrame =>
      forall kind ensures History(v, kind, past) == History(u, kind, past) {
        HistoryIgnores(v, u, kind, past);
      }
    case CallFrame(call) =>
      HistoryIgnores(v, u, Mail, past);
      if KindOf(call.name).Some? && (KindOf(call.name).value != Db || !v.guarded) {
        ConnectionsIgnore(v, u, KindOf(call.name).value, past + [x]);
      }
  }

  lemma DeedsIgnore(v: View, u: View, past: seq<Exchange>, x: Exchange)
    requires Twins(v, u) && Unasked(v, past + [x])
    ensures DeedsOf(v, past, x) == DeedsOf(u, past, x)
  {
    UnaskedBefore(v, past, x);
    if x.request.CallFrame? && KindOf(x.request.call.name).Some? {
      var kind := KindOf(x.request.call.name).value;
      HistoryIgnores(v, u, kind, past);
      ReachedIgnores(v, u, past, x, kind);
      if kind != Db || !v.guarded {
        ConnectionsIgnore(v, u, kind, past + [x]);
      }
    }
  }

  // -- The one that can ---------------------------------------------------------------

  /** The first call of a guarded db: refused under one answer and never so under the other. */
  lemma FirstDbCallTells(v: View, past: seq<Exchange>, x: Exchange)
    requires v.guarded && v.configs.db.Some? && Calls(x, Db) && FirstCall(Db, past).None?
    ensures Answer(v.(allow := true), past, x) != Answer(v.(allow := false), past, x)
    ensures var target := Target(v.configs.db.value);
      && DeedsOf(v.(allow := true), past, x) != [] && DeedsOf(v.(allow := false), past, x) != []
      && DeedsOf(v.(allow := true), past, x)[0] == Asked(target, true)
      && DeedsOf(v.(allow := false), past, x)[0] == Asked(target, false)
  {
    FirstCallSnoc(Db, past, x);
    assert CallResult(v.(allow := false), past, x) == Err(CircuitOpenError());
    var r := CallResult(v.(allow := true), past, x);
    assert r.Err? ==> r.error.code != CircuitOpen;
  }

  lemma {:induction false} FirstCallHasPlace(kind: Kind, xs: seq<Exchange>) returns (i: nat)
    requires FirstCall(kind, xs).Some?
    ensures i < |xs| && Calls(xs[i], kind) && FirstCall(kind, xs[..i]).None?
    decreases |xs|
  {
    var past, x := xs[..|xs| - 1], xs[|xs| - 1];
    assert xs == past + [x];
    FirstCallSnoc(kind, past, x);
    if FirstCall(kind, past).Some? {
      i := FirstCallHasPlace(kind, past);
      assert past[..i] == xs[..i];
    } else {
      i := |xs| - 1;
    }
  }

  lemma {:induction false} FirstCallMeansSome(kind: Kind, xs: seq<Exchange>)
    ensures FirstCall(kind, xs).Some? <==> exists i :: 0 <= i < |xs| && Calls(xs[i], kind)
  {
    if FirstCall(kind, xs).Some? {
      var i := FirstCallHasPlace(kind, xs);
    } else if xs != [] {
      FirstCallMeansSome(kind, xs[1..]);
      forall i | 0 <= i < |xs| ensures !Calls(xs[i], kind) {
        assert i > 0 ==> xs[i] == xs[1..][i - 1];
      }
    }
  }

  // -- Lists of requests --------------------------------------------------------------

  lemma {:induction false} UnaskedPrefix(v: View, xs: seq<Exchange>, i: nat)
    requires i <= |xs| && Unasked(v, xs)
    ensures Unasked(v, xs[..i])
  {
    FirstCallMeansSome(Db, xs);
    FirstCallMeansSome(Db, xs[..i]);
  }

  lemma AnswersHinge(v: View, xs: seq<Exchange>)
    ensures Answers(v.(allow := true), xs) == Answers(v.(allow := false), xs) <==> Unasked(v, xs)
  {
    var yes, no := v.(allow := true), v.(allow := false);
    if Unasked(v, xs) {
      forall i | 0 <= i < |xs| ensures Answers(yes, xs)[i] == Answers(no, xs)[i] {
        assert xs[..i + 1] == xs[..i] + [xs[i]];
        UnaskedPrefix(yes, xs, i + 1);
        AnswerIgnores(yes, no, xs[..i], xs[i]);
      }
    } else {
      var i := FirstCallHasPlace(Db, xs);
      FirstDbCallTells(v, xs[..i], xs[i]);
      assert Answers(yes, xs)[i] != Answers(no, xs)[i];
    }
  }

  lemma {:induction false} DoingsIgnore(v: View, u: View, xs: seq<Exchange>)
    requires Twins(v, u) && Unasked(v, xs)
    ensures Doings(v, xs) == Doings(u, xs)
    decreases |xs|
  {
    if xs != [] {
      var past, x := xs[..|xs| - 1], xs[|xs| - 1];
      assert xs == past + [x];
      UnaskedBefore(v, past, x);
      DoingsIgnore(v, u, past);
      DeedsIgnore(v, u, past, x);
    }
  }

  /** Where two lists first differ, whatever follows. */
  lemma DifferAt(a: seq<Effect>, b: seq<Effect>, base: seq<Effect>, e: Effect, f: Effect)
    requires base + [e] <= a && base + [f] <= b && e != f
    ensures a != b
  {
    assert a[|base|] == (base + [e])[|base|] && b[|base|] == (base + [f])[|base|];
  }

  lemma DoingsReach(v: View, xs: seq<Exchange>, i: nat)
    requires i < |xs| && DeedsOf(v, xs[..i], xs[i]) != []
    ensures Doings(v, xs[..i]) + [DeedsOf(v, xs[..i], xs[i])[0]] <= Doings(v, xs)
  {
    DoingsSnoc(v, xs, i);
    DoingsGrow(v, xs, i + 1, |xs|);
    assert xs[..|xs|] == xs;
    StartsWithFirst(Doings(v, xs[..i]), DeedsOf(v, xs[..i], xs[i]), Doings(v, xs));
  }

  lemma StartsWithFirst(a: seq<Effect>, b: seq<Effect>, all: seq<Effect>)
    requires b != [] && a + b <= all
    ensures a + [b[0]] <= all
  {
  }

  lemma DoingsHinge(v: View, xs: seq<Exchange>)
    ensures Doings(v.(allow := true), xs) == Doings(v.(allow := false), xs) <==> Unasked(v, xs)
  {
    var yes, no := v.(allow := true), v.(allow := false);
    if Unasked(v, xs) {
      DoingsIgnore(yes, no, xs);
    } else {
      var i := FirstCallHasPlace(Db, xs);
      FirstDbCallTells(v, xs[..i], xs[i]);
      DoingsIgnore(yes, no, xs[..i]);
      DoingsReach(yes, xs, i);
      DoingsReach(no, xs, i);
      DifferAt(Doings(yes, xs), Doings(no, xs), Doings(yes, xs[..i]),
               DeedsOf(yes, xs[..i], xs[i])[0], DeedsOf(no, xs[..i], xs[i])[0]);
    }
  }

  // -- Whole sessions -------------------------------------------------------------------

  lemma ExposedMeansAsked(g: Ground, script: Script, n: nat)
    requires n <= |script.exchanges| && Open(g, script).Opened?
    ensures forall allow ::
      Exposed(g, script, n) <==> !Unasked(View(Open(g, script).configs, g.guarded, allow, g.codec), script.exchanges[..n])
  {
    FirstCallMeansSome(Db, script.exchanges[..n]);
  }

  /** What an opened session delivers. */
  lemma DeliveredAnswers(script: Script, v: View)
    requires script.writable != Some(0)
    ensures Delivered([Ack] + Answers(v, script.exchanges), script.writable)
         == [Ack] + Answers(v, script.exchanges[..Replied(script)])
  {
    var xs, n := script.exchanges, Replied(script);
    forall j | 0 <= j < n ensures xs[..n][..j] == xs[..j] {
    }
  }

  /** A conversation, as far as the writer lets it through, is the same whatever the breaker says if
      and only if the session is not exposed within the answers that get through. */
  lemma ConversationHingesOnTheBreaker(g: Ground, script: Script)
    ensures Delivered(Trace(g, script, true), script.writable) == Delivered(Trace(g, script, false), script.writable)
      <==> !Exposed(g, script, Replied(script))
  {
    if Open(g, script).Opened? && script.writable != Some(0) {
      var v := View(Open(g, script).configs, g.guarded, true, g.codec);
      DeliveredAnswers(script, v);
      DeliveredAnswers(script, v.(allow := false));
      AnswersHinge(v, script.exchanges[..Replied(script)]);
      ExposedMeansAsked(g, script, Replied(script));
      SameTail(Answers(v, script.exchanges[..Replied(script)]),
               Answers(v.(allow := false), script.exchanges[..Replied(script)]));
    }
  }

  lemma SameTail(a: seq<Response>, b: seq<Response>)
    ensures [Ack] + a == [Ack] + b <==> a == b
  {
    if [Ack] + a == [Ack] + b {
      assert a == ([Ack] + a)[1..] && b == ([Ack] + b)[1..];
    }
  }

  /** The whole prescribed conversation hinges on the breaker if and only if the session is exposed. */
  lemma TraceHingesOnTheBreaker(g: Ground, script: Script)
    ensures Trace(g, script, true) == Trace(g, script, false) <==> !Exposed(g, script, |script.exchanges|)
  {
    ConversationHingesOnTheBreaker(g, script.(writable := None));
  }

  lemma SameAfterPrologue(a: seq<Effect>, b: seq<Effect>)
    ensures PROLOGUE + a == PROLOGUE + b <==> a == b
  {
    if PROLOGUE + a == PROLOGUE + b {
      assert a == (PROLOGUE + a)[|PROLOGUE|..] && b == (PROLOGUE + b)[|PROLOGUE|..];
    }
  }

  /** And so do the effects of the requests it serves. */
  lemma EffectsHingeOnTheBreaker(g: Ground, script: Script, total: nat, served: nat)
    requires served <= |script.exchanges|
    ensures Prescribed(g, script, true, total, served) == Prescribed(g, script, false, total, served)
      <==> !Exposed(g, script, served)
  {
    if Open(g, script).Opened? {
      var v, xs := View(Open(g, script).configs, g.guarded, true, g.codec), script.exchanges[..served];
      OpenDoes(g, script, true, total, served);
      OpenDoes(g, script, false, total, served);
      DoingsHinge(v, xs);
      ExposedMeansAsked(g, script, served);
      SameAfterPrologue(Doings(v, xs), Doings(v.(allow := false), xs));
    }
  }

  lemma OpenDoes(g: Ground, script: Script, allow: bool, total: nat, served: nat)
    requires served <= |script.exchanges| && Open(g, script).Opened?
    ensures Prescribed(g, script, allow, total, served)
         == PROLOGUE + Doings(View(Open(g, script).configs, g.guarded, allow, g.codec), script.exchanges[..served])
  {
  }

  // -- What an exposed session does ---------------------------------------------------------

  lemma FirstDbCall(g: Ground, script: Script, served: nat) returns (i: nat)
    requires served <= |script.exchanges| && Exposed(g, script, served)
    ensures i < served && Calls(script.exchanges[i], Db) && FirstCall(Db, script.exchanges[..i]).None?
    ensures FirstCall(Db, script.exchanges) == Some(script.exchanges[i])
  {
    var xs := script.exchanges;
    FirstCallMeansSome(Db, xs[..served]);
    i := FirstCallHasPlace(Db, xs[..served]);
    assert xs[..served][..i] == xs[..i];
    FirstCallSnoc(Db, xs[..i], xs[i]);
    FirstCallStays(Db, xs, i);
  }

  lemma {:induction false} FirstCallStays(kind: Kind, xs: seq<Exchange>, i: nat)
    requires i < |xs| && Calls(xs[i], kind) && FirstCall(kind, xs[..i]).None?
    ensures FirstCall(kind, xs) == Some(xs[i])
    decreases i
  {
    if i > 0 {
      assert xs[..i][0] == xs[0] && xs[..i][1..] == xs[1..][..i - 1];
      FirstCallStays(kind, xs[1..], i - 1);
    }
  }

  ghost function TargetOf(g: Ground, script: Script): string
    requires Open(g, script).Opened? && Open(g, script).configs.db.Some?
  {
    Target(Open(g, script).configs.db.value)
  }

  lemma FirstDbDeeds(v: View, past: seq<Exchange>, x: Exchange)
    requires v.guarded && v.configs.db.Some? && Calls(x, Db) && FirstCall(Db, past).None?
    ensures Asked(Target(v.configs.db.value), v.allow) in DeedsOf(v, past, x)
    ensures v.allow ==> Recorded(Target(v.configs.db.value), x.connect.Ok?) in DeedsOf(v, past, x)
  {
    var connect := ConnectDeeds(DbBinding(v.configs.db.value), x.connect, true, v.allow);
    var deeds := DeedsOf(v, past, x);
    assert deeds == connect + Driving(v, past, x);
    assert deeds[0] == connect[0];
    if v.allow {
      assert deeds[2] == connect[2];
    }
  }

  /** What one request does is among what they all do. */
  lemma DeedsAreAmong(v: View, xs: seq<Exchange>, i: nat, served: nat, e: Effect)
    requires i < served <= |xs| && e in DeedsOf(v, xs[..i], xs[i])
    ensures e in PROLOGUE + Doings(v, xs[..served])
  {
    DoingsSnoc(v, xs, i);
    DoingsGrow(v, xs, i + 1, served);
    Inside(Doings(v, xs[..i]), DeedsOf(v, xs[..i], xs[i]), Doings(v, xs[..served]), e);
  }

  lemma Inside(before: seq<Effect>, part: seq<Effect>, whole: seq<Effect>, e: Effect)
    requires before + part <= whole && e in part
    ensures e in whole
  {
    var j :| 0 <= j < |part| && part[j] == e;
    assert whole[|before| + j] == (before + part)[|before| + j] == e;
  }

  /** It asks about its db, and what it hears is the answer; if that is yes, the outcome of its first
      connect is recorded. */
  lemma ExposedAsks(g: Ground, script: Script, allow: bool, total: nat, served: nat)
    requires served <= |script.exchanges| && Exposed(g, script, served)
    ensures var deeds := Prescribed(g, script, allow, total, served);
      && Asked(TargetOf(g, script), allow) in deeds
      && FirstCall(Db, script.exchanges).Some?
      && (allow ==> Recorded(TargetOf(g, script), FirstCall(Db, script.exchanges).value.connect.Ok?) in deeds)
  {
    var v, xs := View(Open(g, script).configs, g.guarded, allow, g.codec), script.exchanges;
    var i := FirstDbCall(g, script, served);
    FirstDbDeeds(v, xs[..i], xs[i]);
    DeedsAreAmong(v, xs, i, served, Asked(TargetOf(g, script), allow));
    if allow {
      DeedsAreAmong(v, xs, i, served, Recorded(TargetOf(g, script), xs[i].connect.Ok?));
    }
  }
}
