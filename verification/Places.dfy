/** What each metric, each operation and each connect belongs to: the very request it came from, by its
    place among the requests of the session. */
module Places {
  import opened Wire
  import opened Resources
  import opened SessionSpec
  import opened Ledger
  import opened DeedSpec
  import opened Sessions
  import opened Stories
  import opened Conduct
  import opened Exposure
  import opened Daemons
  import opened Outgoing
  import opened Replies
  import MailPolicy

  // -- The calls that got through -------------------------------------------------------------

  /** The i-th request is a call of the kind and is handed to its driver. */
  ghost predicate Through(v: View, kind: Kind, xs: seq<Exchange>, i: nat) {
    && i < |xs| && Calls(xs[i], kind)
    && forall f: nat :: FirstOf(kind, xs, f, i) ==> GetsThrough(v, kind, xs, f, i)
  }

  /** The places, in order, of all calls of a kind among the first n requests that got through. */
  ghost predicate PlacesOf(v: View, kind: Kind, xs: seq<Exchange>, n: nat, places: seq<nat>) {
    && n <= |xs|
    && (forall k :: 0 <= k < |places| ==> places[k] < n && Through(v, kind, xs, places[k]))
    && (forall k, l :: 0 <= k < l < |places| ==> places[k] < places[l])
    && (forall i :: 0 <= i < n && Through(v, kind, xs, i) ==> i in places)
  }

  /** The metric of a call: its action, its duration, and the driver's figures, or zeros if it failed. */
  ghost predicate MetricTells(m: Metric, x: Exchange) {
    && x.request.CallFrame?
    && m.action == x.request.call.action && m.durationUs == x.durationUs
    && match x.outcome
       case Ok(o) => m.stats.first == o.stats.first && m.stats.second == o.stats.second && m.stats.flag == o.stats.flag
       case Err(_) => m.stats.first == 0 && m.stats.second == 0 && !m.stats.flag
  }

  lemma ReachedIsThrough(v: View, kind: Kind, xs: seq<Exchange>, i: nat)
    requires i < |xs|
    ensures Calls(xs[i], kind) && Reached(v, xs[..i], xs[i]) <==> Through(v, kind, xs, i)
  {
    if Calls(xs[i], kind) {
      var f := FirstOfExists(kind, xs, i);
      ReachedByPlace(v, kind, xs, f, i);
      forall g: nat | FirstOf(kind, xs, g, i) ensures g == f {
      }
    }
  }

  lemma PlacesGrow(v: View, kind: Kind, xs: seq<Exchange>, n: nat, places: seq<nat>)
    requires n < |xs| && PlacesOf(v, kind, xs, n, places)
    ensures Through(v, kind, xs, n) ==> PlacesOf(v, kind, xs, n + 1, places + [n])
    ensures !Through(v, kind, xs, n) ==> PlacesOf(v, kind, xs, n + 1, places)
  {
    var more := places + [n];
    assert n in more && forall i :: i in places ==> i in more;
  }

  lemma {:induction false} HistoryHasPlaces(v: View, kind: Kind, xs: seq<Exchange>, n: nat) returns (places: seq<nat>)
    requires n <= |xs|
    ensures PlacesOf(v, kind, xs, n, places) && |places| == |History(v, kind, xs[..n])|
    ensures forall k :: 0 <= k < |places| ==> MetricTells(History(v, kind, xs[..n])[k], xs[places[k]])
    decreases n
  {
    if n == 0 {
      places := [];
    } else {
      places := HistoryHasPlaces(v, kind, xs, n - 1);
      assert xs[..n] == xs[..n - 1] + [xs[n - 1]];
      HistorySnoc(v, kind, xs[..n - 1], xs[n - 1]);
      ReachedIsThrough(v, kind, xs, n - 1);
      PlacesGrow(v, kind, xs, n - 1, places);
      if Through(v, kind, xs, n - 1) {
        assert MetricTells(MetricOf(xs[n - 1]), xs[n - 1]);
        places := places + [n - 1];
      }
    }
  }

  /** The metrics of a kind, by the name of its field. */
  ghost predicate IsFieldOf(m: BackendMetrics, kind: Kind, metrics: seq<Metric>) {
    match kind
    case Db => metrics == m.db
    case Mongo => metrics == m.mongo
    case Mail => metrics == m.mail
    case Redis => metrics == m.redis
    case Amq => metrics == m.amq
    case Auth => metrics == m.auth
  }

  /** In every run, in every drain reply and for every kind, the metrics are as many as the calls of that
      kind that got through before it, and the k-th metric tells the k-th of them, field by field. */
  lemma DrainsTellTheCalls(cfg: Config, scripts: map<nat, Script>, moves: seq<Move>, sid: nat,
                           d: nat, kind: Kind, allow: bool) returns (metrics: seq<Metric>, places: seq<nat>)
    requires sid in scripts && Possible(After(cfg, scripts, moves, sid), allow)
    requires d < |scripts[sid].exchanges| && d + 1 < |After(cfg, scripts, moves, sid).written|
    requires scripts[sid].exchanges[d].request.DrainFrame?
    ensures Open(cfg.Ground(), scripts[sid]).Opened?
    ensures var reply := After(cfg, scripts, moves, sid).written[d + 1];
      reply.Metrics? && IsFieldOf(reply.metrics, kind, metrics)
    ensures PlacesOf(ViewOf(cfg.Ground(), scripts[sid], allow), kind, scripts[sid].exchanges, d, places)
    ensures |metrics| == |places|
    ensures forall k :: 0 <= k < |metrics| ==> MetricTells(metrics[k], scripts[sid].exchanges[places[k]])
  {
    AnswersArePrescribed(cfg, scripts, moves, sid, d, allow);
    var v, xs := ViewOf(cfg.Ground(), scripts[sid], allow), scripts[sid].exchanges;
    metrics := History(v, kind, xs[..d]);
    places := HistoryHasPlaces(v, kind, xs, d);
  }

  // -- Operations ------------------------------------------------------------------------------

  /** The arguments a payload unpacks to; an absent or null part takes its default. */
  ghost predicate ArgsTell(codec: Codec, kind: Kind, payload: string, args: Option<Args>) {
    match kind
    case Db =>
      && codec.db(payload).Ok?
      && args == Some(DbArgs(codec.db(payload).value.0,
                             if codec.db(payload).value.1.Some? then codec.db(payload).value.1.value else "[]"))
    case Mongo =>
      && codec.mongo(payload).Ok?
      && args == Some(MongoArgs(codec.mongo(payload).value.0,
                                if codec.mongo(payload).value.1.Some? then codec.mongo(payload).value.1.value else "{}"))
    case Auth => codec.auth(payload).Ok? && args == Some(TokenArg(codec.auth(payload).value))
    case _ => args == Some(RawArgs(payload))
  }

  /** The operation of a call: the kind's own configuration, the client its first call won, the call's own
      action and arguments. */
  ghost predicate OperationTells(v: View, kind: Kind, xs: seq<Exchange>, i: nat, e: Effect) {
    && i < |xs| && Calls(xs[i], kind) && e.Dispatched?
    && Some(e.binding) == v.configs.For(kind)
    && (kind != Amq ==> forall f: nat :: FirstOf(kind, xs, f, i) ==> xs[f].connect == Ok(e.client))
    && e.action == xs[i].request.call.action
    && ArgsTell(v.codec, kind, xs[i].request.call.payload, e.args)
    && (kind != Mail ==> e.handed.None?)
    && (kind == Mail ==>
          && v.configs.mail.Some?
          && e.handed == MailPolicy.Handed(v.codec.mail, v.configs.mail.value, e.action, xs[i].request.call.payload))
  }

  lemma OperationIsTheCalls(v: View, kind: Kind, xs: seq<Exchange>, i: nat)
    requires i < |xs| && Calls(xs[i], kind) && Reached(v, xs[..i], xs[i])
    ensures |Driving(v, xs[..i], xs[i])| == 1
    ensures OperationTells(v, kind, xs, i, Driving(v, xs[..i], xs[i])[0])
  {
    if kind != Amq {
      forall f: nat | FirstOf(kind, xs, f, i)
        ensures xs[f].connect == Ok(Driving(v, xs[..i], xs[i])[0].client)
      {
        ConnectionByPlace(v, kind, xs, f, i);
      }
    }
  }

  lemma DeedsOperations(v: View, kind: Kind, past: seq<Exchange>, x: Exchange)
    ensures Filter(DeedsOf(v, past, x), DispatchOf(kind)) ==
      if Calls(x, kind) && Reached(v, past, x) then Driving(v, past, x) else []
  {
    if x.request.CallFrame? && KindOf(x.request.call.name).Some? {
      var called := KindOf(x.request.call.name).value;
      FilterAppend(Settling(v, called, past, x), Driving(v, past, x), DispatchOf(kind));
      SettlingDrivesNothing(v, called, past, x, kind);
      DrivingOperations(v, kind, past, x);
    }
  }

  lemma DrivingOperations(v: View, kind: Kind, past: seq<Exchange>, x: Exchange)
    ensures Filter(Driving(v, past, x), DispatchOf(kind)) ==
      if Calls(x, kind) && Reached(v, past, x) then Driving(v, past, x) else []
  {
    if Reached(v, past, x) {
      DrivingIsOne(v, past, x);
      FilterOne(Driving(v, past, x)[0], DispatchOf(kind));
    }
  }

  ghost predicate OperationsAt(v: View, kind: Kind, xs: seq<Exchange>, places: seq<nat>, ops: seq<Effect>) {
    |places| == |ops| && forall k :: 0 <= k < |ops| ==> OperationTells(v, kind, xs, places[k], ops[k])
  }

  lemma OperationsGrow(v: View, kind: Kind, xs: seq<Exchange>, places: seq<nat>, ops: seq<Effect>, i: nat, e: Effect)
    requires OperationsAt(v, kind, xs, places, ops) && OperationTells(v, kind, xs, i, e)
    ensures OperationsAt(v, kind, xs, places + [i], ops + [e])
  {
  }

  function OperationsOf(v: View, kind: Kind, xs: seq<Exchange>, n: nat): seq<Effect>
    requires n <= |xs|
  {
    Filter(Doings(v, xs[..n]), DispatchOf(kind))
  }

  lemma OneMoreRequest(v: View, kind: Kind, xs: seq<Exchange>, n: nat)
    requires n < |xs|
    ensures OperationsOf(v, kind, xs, n + 1) ==
      OperationsOf(v, kind, xs, n) + if Through(v, kind, xs, n) then Driving(v, xs[..n], xs[n]) else []
  {
    DoingsSnoc(v, xs, n);
    FilterAppend(Doings(v, xs[..n]), DeedsOf(v, xs[..n], xs[n]), DispatchOf(kind));
    DeedsOperations(v, kind, xs[..n], xs[n]);
    ReachedIsThrough(v, kind, xs, n);
  }

  lemma {:induction false} OperationsHavePlaces(v: View, kind: Kind, xs: seq<Exchange>, n: nat) returns (places: seq<nat>)
    requires n <= |xs|
    ensures PlacesOf(v, kind, xs, n, places) && OperationsAt(v, kind, xs, places, OperationsOf(v, kind, xs, n))
    decreases n
  {
    if n == 0 {
      places := [];
    } else {
      places := OperationsHavePlaces(v, kind, xs, n - 1);
      OneMoreRequest(v, kind, xs, n - 1);
      PlacesGrow(v, kind, xs, n - 1, places);
      if Through(v, kind, xs, n - 1) {
        ReachedIsThrough(v, kind, xs, n - 1);
        OperationIsTheCalls(v, kind, xs, n - 1);
        var ops := Driving(v, xs[..n - 1], xs[n - 1]);
        assert ops == [ops[0]];
        OperationsGrow(v, kind, xs, places, OperationsOf(v, kind, xs, n - 1), n - 1, ops[0]);
        places := places + [n - 1];
      }
    }
  }

  lemma OpenFilters(g: Ground, script: Script, allow: bool, total: nat, kind: Kind)
    requires Open(g, script).Opened?
    ensures Filter(Prescribed(g, script, allow, total, |script.exchanges|), DispatchOf(kind))
         == OperationsOf(ViewOf(g, script, allow), kind, script.exchanges, |script.exchanges|)
  {
    OpenPrescribes(g, script, allow, total, |script.exchanges|);
    FilterAppend(PROLOGUE, Doings(ViewOf(g, script, allow), script.exchanges[..|script.exchanges|]), DispatchOf(kind));
    PrologueDrivesNothing(kind);
  }

  lemma FilterPrefix(part: seq<Effect>, whole: seq<Effect>, topic: Topic)
    requires part <= whole
    ensures Filter(part, topic) <= Filter(whole, topic)
  {
    assert whole == part + whole[|part|..];
    FilterAppend(part, whole[|part|..], topic);
  }

  /** In every run, the k-th operation of a kind that a session has handed to a driver is that of the k-th of
      its calls of the kind that get through: same configuration, client, action and arguments. */
  lemma OperationsAreTheCalls(cfg: Config, scripts: map<nat, Script>, moves: seq<Move>, sid: nat, kind: Kind, allow: bool)
    returns (places: seq<nat>)
    requires sid in scripts && Possible(After(cfg, scripts, moves, sid), allow) && Open(cfg.Ground(), scripts[sid]).Opened?
    ensures PlacesOf(ViewOf(cfg.Ground(), scripts[sid], allow), kind, scripts[sid].exchanges, |scripts[sid].exchanges|, places)
    ensures var ops := Filter(Deeds(cfg, scripts, moves, sid), DispatchOf(kind));
      && |ops| <= |places|
      && forall k :: 0 <= k < |ops| ==>
           OperationTells(ViewOf(cfg.Ground(), scripts[sid], allow), kind, scripts[sid].exchanges, places[k], ops[k])
  {
    var g, script, deeds := cfg.Ground(), scripts[sid], Deeds(cfg, scripts, moves, sid);
    InterleavedEqualsAlone(cfg, scripts, moves, sid, allow);
    FilterPrefix(deeds, Prescribed(g, script, allow, TotalTold(deeds), |script.exchanges|), DispatchOf(kind));
    OpenFilters(g, script, allow, TotalTold(deeds), kind);
    places := OperationsHavePlaces(ViewOf(g, script, allow), kind, script.exchanges, |script.exchanges|);
  }

  // -- Connects --------------------------------------------------------------------------------

  /** A connect attempt: the kind's own configuration, and the outcome met by its first call. */
  ghost predicate AttemptTells(v: View, xs: seq<Exchange>, i: nat, e: Effect) {
    && i < |xs| && e.Attempted? && e.binding.Kind() != Amq
    && FirstOf(e.binding.Kind(), xs, i, i)
    && v.configs.For(e.binding.Kind()) == Some(e.binding)
    && e.outcome == xs[i].connect
  }

  lemma SettlingTells(v: View, xs: seq<Exchange>, i: nat, e: Effect)
    requires i < |xs| && e in DeedsOf(v, xs[..i], xs[i]) && e.Attempted?
    ensures AttemptTells(v, xs, i, e)
  {
    var kind := KindOf(xs[i].request.call.name).value;
    assert e in Settling(v, kind, xs[..i], xs[i]);
    FirstCallMeansSome(kind, xs[..i]);
    forall j | 0 <= j < i ensures !Calls(xs[j], kind) {
      assert xs[..i][j] == xs[j];
    }
  }

  lemma {:induction false} AttemptHasPlace(v: View, xs: seq<Exchange>, n: nat, e: Effect) returns (i: nat)
    requires n <= |xs| && e in Doings(v, xs[..n]) && e.Attempted?
    ensures AttemptTells(v, xs, i, e)
    decreases n
  {
    DoingsSnoc(v, xs, n - 1);
    if e in DeedsOf(v, xs[..n - 1], xs[n - 1]) {
      SettlingTells(v, xs, n - 1, e);
      i := n - 1;
    } else {
      i := AttemptHasPlace(v, xs, n - 1, e);
    }
  }

  lemma AttemptsAreDoings(g: Ground, script: Script, allow: bool, total: nat, e: Effect)
    requires e in Prescribed(g, script, allow, total, |script.exchanges|) && e.Attempted?
    ensures Open(g, script).Opened? && e in Doings(ViewOf(g, script, allow), script.exchanges[..|script.exchanges|])
  {
    assert forall f :: f in PROLOGUE ==> !f.Attempted?;
  }

  /** In every run, every connect attempt of a session is the one its first call of that kind makes, under the
      kind's own configuration and with the outcome that call met. */
  lemma AttemptsAreFirstCalls(cfg: Config, scripts: map<nat, Script>, moves: seq<Move>, sid: nat, e: Effect, allow: bool)
    returns (i: nat)
    requires sid in scripts && Possible(After(cfg, scripts, moves, sid), allow)
    requires e in Deeds(cfg, scripts, moves, sid) && e.Attempted?
    ensures Open(cfg.Ground(), scripts[sid]).Opened?
    ensures AttemptTells(ViewOf(cfg.Ground(), scripts[sid], allow), scripts[sid].exchanges, i, e)
  {
    var g, script, deeds := cfg.Ground(), scripts[sid], Deeds(cfg, scripts, moves, sid);
    InterleavedEqualsAlone(cfg, scripts, moves, sid, allow);
    AttemptsAreDoings(g, script, allow, TotalTold(deeds), e);
    i := AttemptHasPlace(ViewOf(g, script, allow), script.exchanges, |script.exchanges|, e);
  }
}
