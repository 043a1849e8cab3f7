/** The capped accept loop of the QUIC listener (crates/fabricd/src/main.rs, `quic_accept_loop`,
    `handle_quic_connection`): one loop accepts, waits for a permit and hands over; a handled
    connection gives its permit back when its handshake fails or it closes. */
module ConnectionCap {
  import opened Wire

  datatype Acceptor = Acceptor(
    max: nat, available: nat, waiting: Option<nat>, handled: set<nat>, arrived: set<nat>, ended: set<nat>)

  datatype Event =
    | Arrive(id: nat)          // the endpoint yields a new connection to the loop
    | Acquire                  // the loop gets a permit and spawns the handler
    | HandshakeFailed(id: nat) // the handler returns early
    | Closed(id: nat)          // the peer closed, the handler returns

  function Fresh(max: nat): Acceptor {
    Acceptor(max, max, None, {}, {}, {})
  }

  function Release(a: Acceptor, id: nat): Acceptor {
    if id in a.handled then
      a.(available := a.available + 1, handled := a.handled - {id}, ended := a.ended + {id})
    else a
  }

  /** One step; an event that cannot happen in a state leaves it alone. While a connection waits for a
      permit the loop accepts no other. */
  function Step(a: Acceptor, e: Event): Acceptor {
    match e
    case Arrive(id) =>
      if a.waiting.None? && id !in a.arrived then a.(waiting := Some(id), arrived := a.arrived + {id}) else a
    case Acquire =>
      if a.waiting.Some? && a.available > 0 then
        a.(waiting := None, available := a.available - 1, handled := a.handled + {a.waiting.value})
      else a
    case HandshakeFailed(id) => Release(a, id)
    case Closed(id) => Release(a, id)
  }

  function Run(a: Acceptor, events: seq<Event>): Acceptor {
    if events == [] then a
    else Step(Run(a, events[..|events| - 1]), events[|events| - 1])
  }

  ghost function Waiting(a: Acceptor): set<nat> {
    if a.waiting.Some? then {a.waiting.value} else {}
  }

  /** Permits are conserved, and so are connections: each one that arrived is waiting, handled or
      ended, and only one of these. */
  ghost predicate Conserved(a: Acceptor) {
    && a.available + |a.handled| == a.max
    && a.arrived == Waiting(a) + a.handled + a.ended
    && Waiting(a) !! a.handled
    && Waiting(a) + a.handled !! a.ended
  }

  lemma ArriveConserves(a: Acceptor, id: nat)
    requires Conserved(a)
    ensures Conserved(Step(a, Arrive(id)))
  {
  }

  lemma AcquireConserves(a: Acceptor)
    requires Conserved(a)
    ensures Conserved(Step(a, Acquire))
  {
    var after := Step(a, Acquire);
    if after != a {
      assert Waiting(a) == {a.waiting.value} && Waiting(after) == {};
      assert after.handled == a.handled + Waiting(a);
    }
  }

  lemma ReleaseConserves(a: Acceptor, id: nat)
    requires Conserved(a)
    ensures Conserved(Release(a, id))
  {
    var after := Release(a, id);
    if id in a.handled {
      assert after.handled + {id} == a.handled;
      assert Waiting(after) == Waiting(a);
    }
  }

  lemma StepConserves(a: Acceptor, e: Event)
    requires Conserved(a)
    ensures Conserved(Step(a, e)) && Step(a, e).max == a.max
  {
    match e
    case Arrive(id) => ArriveConserves(a, id);
    case Acquire => AcquireConserves(a);
    case HandshakeFailed(id) => ReleaseConserves(a, id);
    case Closed(id) => ReleaseConserves(a, id);
  }

  /** At every step of every run: available plus held permits equal the maximum, the connections being
      handled never exceed it, at most one accepted connection waits, and none is lost or handled
      twice. */
  lemma {:induction false} CapHoldsInEveryRun(max: nat, events: seq<Event>)
    ensures var a := Run(Fresh(max), events);
      && a.max == max && Conserved(a)
      && |a.handled| <= max
      && |a.arrived| == |Waiting(a)| + |a.handled| + |a.ended| && |Waiting(a)| <= 1
    decreases |events|
  {
    if events != [] {
      var before := Run(Fresh(max), events[..|events| - 1]);
      CapHoldsInEveryRun(max, events[..|events| - 1]);
      StepConserves(before, events[|events| - 1]);
    }
    var a := Run(Fresh(max), events);
    assert |Waiting(a) + a.handled + a.ended| == |Waiting(a)| + |a.handled| + |a.ended|;
  }

  /** The loop holds a connection back only when every permit is out: in any reachable state the waiting
      one is admitted by the next acquire unless the cap is reached. */
  lemma WaitsOnlyAtTheCap(max: nat, events: seq<Event>, id: nat)
    requires Run(Fresh(max), events).waiting == Some(id)
    ensures id in Run(Fresh(max), events + [Acquire]).handled <==> |Run(Fresh(max), events).handled| < max
  {
    CapHoldsInEveryRun(max, events);
    assert (events + [Acquire])[..|events|] == events;
    assert id !in Run(Fresh(max), events).handled;
  }

  // -- Each event does its part -----------------------------------------------------------------

  ghost predicate Ends(e: Event, id: nat) {
    e == HandshakeFailed(id) || e == Closed(id)
  }

  /** After any run, a failed handshake or a close of a handled connection gives exactly one permit back and
      takes exactly that connection out. */
  lemma EndingGivesBack(max: nat, events: seq<Event>, id: nat, e: Event)
    requires Ends(e, id) && id in Run(Fresh(max), events).handled
    ensures var a, b := Run(Fresh(max), events), Run(Fresh(max), events + [e]);
      && b.available == a.available + 1 && b.handled == a.handled - {id} && b.ended == a.ended + {id}
      && b.waiting == a.waiting && b.arrived == a.arrived
  {
    assert (events + [e])[..|events|] == events;
  }

  /** An acquire below the cap takes one permit, for exactly the connection that waits. */
  lemma AcquireTakesOne(max: nat, events: seq<Event>, id: nat)
    requires Run(Fresh(max), events).waiting == Some(id) && |Run(Fresh(max), events).handled| < max
    ensures var a, b := Run(Fresh(max), events), Run(Fresh(max), events + [Acquire]);
      && b.available + 1 == a.available && b.handled == a.handled + {id} && id !in a.handled
      && b.waiting.None? && b.ended == a.ended && b.arrived == a.arrived
  {
    CapHoldsInEveryRun(max, events);
    assert (events + [Acquire])[..|events|] == events;
    assert id in Waiting(Run(Fresh(max), events));
  }

  /** A new connection waits if none does, and takes nothing yet. */
  lemma ArrivalWaits(max: nat, events: seq<Event>, id: nat)
    requires Run(Fresh(max), events).waiting.None? && id !in Run(Fresh(max), events).arrived
    ensures var a, b := Run(Fresh(max), events), Run(Fresh(max), events + [Arrive(id)]);
      && b.waiting == Some(id) && b.arrived == a.arrived + {id}
      && b.available == a.available && b.handled == a.handled && b.ended == a.ended
  {
    assert (events + [Arrive(id)])[..|events|] == events;
  }

  /** A connection is over exactly when, at some point of the run at which it was handled, its handshake failed
      or it closed: no permit is given back for anything else, and none is kept after that. */
  lemma {:induction false} EndedMeansItEnded(max: nat, events: seq<Event>, id: nat)
    ensures id in Run(Fresh(max), events).ended <==>
      exists k :: 0 <= k < |events| && Ends(events[k], id) && id in Run(Fresh(max), events[..k]).handled
    decreases |events|
  {
    if events != [] {
      var n := |events| - 1;
      var rest, a, b := events[..n], Run(Fresh(max), events[..n]), Run(Fresh(max), events);
      EndedMeansItEnded(max, rest, id);
      forall k | 0 <= k < n ensures rest[..k] == events[..k] && rest[k] == events[k] {
      }
      assert id in b.ended <==> id in a.ended || (Ends(events[n], id) && id in a.handled);
    }
  }
}
