/** What a session must do to the world outside it, besides answering, stated on its history alone:
    which effects each request has, in which order, without slots or cells. */
module DeedSpec {
  import opened Wire
  import opened Resources
  import opened ClientAuth
  import opened SessionSpec
  import opened Ledger

  /** One connect: the db behind a breaker is asked about, attempted and recorded, or refused. */
  function ConnectDeeds(binding: Binding, connect: Result<nat, Fault>, guarded: bool, allowed: bool): seq<Effect> {
    if !binding.DbBinding? || !guarded then [Attempted(binding, connect)]
    else
      var target := Target(binding.dbConfig);
      if !allowed then [Asked(target, false)]
      else [Asked(target, true), Attempted(binding, connect), Recorded(target, connect.Ok?)]
  }

  /** The connect, which is due at the first call of a kind and never again. */
  function Settling(v: View, kind: Kind, past: seq<Exchange>, x: Exchange): seq<Effect> {
    if v.configs.For(kind).None? || kind == Amq || FirstCall(kind, past).Some? then []
    else ConnectDeeds(v.configs.For(kind).value, x.connect, v.guarded, v.allow)
  }

  /** The operation, on the client that the first call of the kind won. */
  function Driving(v: View, past: seq<Exchange>, x: Exchange): seq<Effect> {
    if !Reached(v, past, x) then []
    else
      var kind := KindOf(x.request.call.name).value;
      [Dispatching(v.codec, kind, v.configs.For(kind).value, Connection(v, kind, past + [x]).value.value, x.request.call)]
  }

  /** The effects of one request. */
  function DeedsOf(v: View, past: seq<Exchange>, x: Exchange): seq<Effect> {
    if !x.request.CallFrame? || KindOf(x.request.call.name).None? then []
    else Settling(v, KindOf(x.request.call.name).value, past, x) + Driving(v, past, x)
  }

  /** The effects of a list of requests, in order. */
  function Doings(v: View, xs: seq<Exchange>): seq<Effect> {
    if xs == [] then []
    else Doings(v, xs[..|xs| - 1]) + DeedsOf(v, xs[..|xs| - 1], xs[|xs| - 1])
  }

  lemma DoingsSnoc(v: View, xs: seq<Exchange>, i: nat)
    requires i < |xs|
    ensures Doings(v, xs[..i + 1]) == Doings(v, xs[..i]) + DeedsOf(v, xs[..i], xs[i])
  {
    assert xs[..i + 1][..i] == xs[..i];
  }

  lemma {:induction false} DoingsGrow(v: View, xs: seq<Exchange>, i: nat, j: nat)
    requires i <= j <= |xs|
    ensures Doings(v, xs[..i]) <= Doings(v, xs[..j])
    decreases j
  {
    if i < j {
      DoingsGrow(v, xs, i, j - 1);
      DoingsGrowByOne(v, xs, j - 1);
    }
  }

  lemma DoingsGrowByOne(v: View, xs: seq<Exchange>, j: nat)
    requires j < |xs|
    ensures Doings(v, xs[..j]) <= Doings(v, xs[..j + 1])
  {
    DoingsSnoc(v, xs, j);
    Longer(Doings(v, xs[..j]), Doings(v, xs[..j]), DeedsOf(v, xs[..j], xs[j]));
  }

  lemma Longer(a: seq<Effect>, b: seq<Effect>, c: seq<Effect>)
    requires a <= b
    ensures a <= b + c
  {
  }

  /** Judged, looked up, built. */
  const PROLOGUE := [Authenticated(true), LookedUp, Built]

  /** Everything a session does that serves the first `served` of its requests; a rejected one is told
      `total`. */
  function Prescribed(g: Ground, script: Script, allow: bool, total: nat, served: nat): seq<Effect>
    requires served <= |script.exchanges|
  {
    if script.first.None? || !script.first.value.InitFrame? then []
    else
      var init := script.first.value.init;
      if Authenticate(script.authenticator, init.token, script.verdict).Err? then
        [Authenticated(false), Rejected(total)]
      else
        match Open(g, script)
        case Opened(configs) =>
          PROLOGUE + Doings(View(configs, g.guarded, allow, g.codec), script.exchanges[..served])
        case _ => [Authenticated(true), LookedUp]
  }

  /** How many requests are served: all, or as many as were answered before the writer broke and the
      one whose answer broke it. */
  function Served(script: Script): (n: nat)
    ensures n <= |script.exchanges|
  {
    Reach(script.writable, |script.exchanges|)
  }

  function Reach(writable: Option<nat>, n: nat): nat {
    if writable.Some? && writable.value < n then writable.value else n
  }
}
