/** Frames that call nothing - drains and a second `Init` - leave no mark: but for the frame and its own
    answer, the session is the one it would have been without them. */
module QuietFrames {
  import opened Wire
  import opened SessionSpec
  import opened Ledger
  import opened DeedSpec
  import opened Sessions
  import opened Conduct
  import opened Daemons

  function Without<T>(xs: seq<T>, i: nat): seq<T>
    requires i < |xs|
  {
    xs[..i] + xs[i + 1..]
  }

  lemma WithoutSnoc<T>(xs: seq<T>, i: nat, x: T)
    requires i < |xs|
    ensures Without(xs + [x], i) == Without(xs, i) + [x]
  {
  }

  lemma WithoutLast<T>(xs: seq<T>)
    requires xs != []
    ensures Without(xs, |xs| - 1) == xs[..|xs| - 1]
  {
  }

  lemma {:induction false} FirstCallWithout(kind: Kind, xs: seq<Exchange>, i: nat)
    requires i < |xs| && !xs[i].request.CallFrame?
    ensures FirstCall(kind, Without(xs, i)) == FirstCall(kind, xs)
    decreases |xs|
  {
    var past, x := xs[..|xs| - 1], xs[|xs| - 1];
    assert xs == past + [x];
    FirstCallSnoc(kind, past, x);
    if i < |past| {
      FirstCallWithout(kind, past, i);
      WithoutSnoc(past, i, x);
      FirstCallSnoc(kind, Without(past, i), x);
    } else {
      WithoutLast(xs);
    }
  }

  lemma ConnectionWithout(v: View, kind: Kind, past: seq<Exchange>, i: nat, x: Exchange)
    requires i < |past| && !past[i].request.CallFrame?
    ensures Connection(v, kind, Without(past, i) + [x]) == Connection(v, kind, past + [x])
  {
    WithoutSnoc(past, i, x);
    FirstCallWithout(kind, past + [x], i);
  }

  lemma ReachedWithout(v: View, past: seq<Exchange>, i: nat, x: Exchange)
    requires i < |past| && !past[i].request.CallFrame?
    requires History(v, Mail, Without(past, i)) == History(v, Mail, past)
    ensures Reached(v, Without(past, i), x) == Reached(v, past, x)
  {
    if x.request.CallFrame? && KindOf(x.request.call.name).Some? {
      ConnectionWithout(v, KindOf(x.request.call.name).value, past, i, x);
    }
  }

  lemma {:induction false} HistoryWithout(v: View, kind: Kind, xs: seq<Exchange>, i: nat)
    requires i < |xs| && !xs[i].request.CallFrame?
    ensures History(v, kind, Without(xs, i)) == History(v, kind, xs)
    decreases |xs|
  {
    var past, x := xs[..|xs| - 1], xs[|xs| - 1];
    assert xs == past + [x];
    HistorySnoc(v, kind, past, x);
    if i < |past| {
      HistoryWithout(v, kind, past, i);
      HistoryWithout(v, Mail, past, i);
      ReachedWithout(v, past, i, x);
      WithoutSnoc(past, i, x);
      HistorySnoc(v, kind, Without(past, i), x);
    } else {
      WithoutLast(xs);
    }
  }

  lemma AnswerWithout(v: View, past: seq<Exchange>, i: nat, x: Exchange)
    requires i < |past| && !past[i].request.CallFrame?
    ensures Answer(v, Without(past, i), x) == Answer(v, past, x)
  {
    forall kind ensures History(v, kind, Without(past, i)) == History(v, kind, past) {
      HistoryWithout(v, kind, past, i);
    }
    assert History(v, Mail, Without(past, i)) == History(v, Mail, past);
    if x.request.CallFrame? && KindOf(x.request.call.name).Some? {
      ConnectionWithout(v, KindOf(x.request.call.name).value, past, i, x);
    }
  }

  lemma DeedsWithout(v: View, past: seq<Exchange>, i: nat, x: Exchange)
    requires i < |past| && !past[i].request.CallFrame?
    ensures DeedsOf(v, Without(past, i), x) == DeedsOf(v, past, x)
  {
    if x.request.CallFrame? && KindOf(x.request.call.name).Some? {
      var kind := KindOf(x.request.call.name).value;
      HistoryWithout(v, Mail, past, i);
      ReachedWithout(v, past, i, x);
      ConnectionWithout(v, kind, past, i, x);
      FirstCallWithout(kind, past, i);
    }
  }

  /** Every other request is answered as before. */
  lemma AnswersWithout(v: View, xs: seq<Exchange>, i: nat)
    requires i < |xs| && !xs[i].request.CallFrame?
    ensures Answers(v, Without(xs, i)) == Without(Answers(v, xs), i)
  {
    var ys := Without(xs, i);
    forall j | 0 <= j < |ys| ensures Answers(v, ys)[j] == Without(Answers(v, xs), i)[j] {
      if j < i {
        assert ys[..j] == xs[..j];
      } else {
        assert ys[..j] == Without(xs[..j + 1], i);
        AnswerWithout(v, xs[..j + 1], i, xs[j + 1]);
      }
    }
  }

  lemma {:induction false} DoingsWithout(v: View, xs: seq<Exchange>, i: nat)
    requires i < |xs| && !xs[i].request.CallFrame?
    ensures Doings(v, Without(xs, i)) == Doings(v, xs)
    decreases |xs|
  {
    var past, x := xs[..|xs| - 1], xs[|xs| - 1];
    assert xs == past + [x];
    if i < |past| {
      DoingsWithout(v, past, i);
      DeedsWithout(v, past, i, x);
      WithoutSnoc(past, i, x);
      assert (Without(past, i) + [x])[..|past| - 1] == Without(past, i);
    } else {
      WithoutLast(xs);
    }
  }

  function Skip(script: Script, i: nat): Script
    requires i < |script.exchanges|
  {
    script.(exchanges := Without(script.exchanges, i))
  }

  lemma TraceWithout(g: Ground, script: Script, allow: bool, i: nat)
    requires Open(g, script).Opened? && i < |script.exchanges| && !script.exchanges[i].request.CallFrame?
    ensures i + 1 < |Trace(g, script, allow)|
    ensures Trace(g, Skip(script, i), allow) == Without(Trace(g, script, allow), i + 1)
  {
    var v := ViewOf(g, script, allow);
    AnswersWithout(v, script.exchanges, i);
    assert Without([Ack] + Answers(v, script.exchanges), i + 1) == [Ack] + Without(Answers(v, script.exchanges), i);
  }

  lemma PrescribedWithout(g: Ground, script: Script, allow: bool, total: nat, i: nat)
    requires Open(g, script).Opened? && i < |script.exchanges| && !script.exchanges[i].request.CallFrame?
    ensures Prescribed(g, Skip(script, i), allow, total, |script.exchanges| - 1)
         == Prescribed(g, script, allow, total, |script.exchanges|)
  {
    var xs, ys := script.exchanges, Skip(script, i).exchanges;
    assert xs[..|xs|] == xs && ys[..|ys|] == ys;
    DoingsWithout(ViewOf(g, script, allow), xs, i);
  }

  /** In any two runs in which it finishes, a session with a drain or a second `Init` among its requests and
      the same session without that frame say the same but for the one answer, and do the same; a second
      `Init` is answered with a protocol error. */
  lemma ExtraFramesChangeNothing(cfg: Config, scripts: map<nat, Script>, others: map<nat, Script>,
                                 moves: seq<Move>, schedule: seq<Move>, sid: nat, i: nat, allow: bool)
    requires sid in scripts && sid in others && scripts[sid].writable.None? && Open(cfg.Ground(), scripts[sid]).Opened?
    requires i < |scripts[sid].exchanges| && !scripts[sid].exchanges[i].request.CallFrame?
    requires others[sid] == Skip(scripts[sid], i)
    requires After(cfg, scripts, moves, sid).phase.Done? && After(cfg, others, schedule, sid).phase.Done?
    requires Possible(After(cfg, scripts, moves, sid), allow) && Possible(After(cfg, others, schedule, sid), allow)
    ensures var s, t := After(cfg, scripts, moves, sid), After(cfg, others, schedule, sid);
      && i + 1 < |s.written|
      && t.written == Without(s.written, i + 1)
      && (scripts[sid].exchanges[i].request.InitFrame? ==>
            s.written[i + 1] == ProtocolError("Init already received for this session"))
    ensures Deeds(cfg, others, schedule, sid) == Deeds(cfg, scripts, moves, sid)
  {
    var g, script := cfg.Ground(), scripts[sid];
    InterleavedEqualsAlone(cfg, scripts, moves, sid, allow);
    InterleavedEqualsAlone(cfg, others, schedule, sid, allow);
    TraceWithout(g, script, allow, i);
    TraceAt(g, script, allow, i);
    OpenedHasOnePrescription(g, script, allow, TotalTold(Deeds(cfg, scripts, moves, sid)),
                             TotalTold(Deeds(cfg, others, schedule, sid)));
    PrescribedWithout(g, script, allow, TotalTold(Deeds(cfg, others, schedule, sid)), i);
  }

  /** The total told to rejected sessions plays no part in an open one. */
  lemma OpenedHasOnePrescription(g: Ground, script: Script, allow: bool, m: nat, n: nat)
    requires Open(g, script).Opened?
    ensures Prescribed(g, script, allow, m, |script.exchanges|) == Prescribed(g, script, allow, n, |script.exchanges|)
  {
  }
}
