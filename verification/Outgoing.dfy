/** Mail over whole runs: what any session of any daemon hands to a mail transport. */
module Outgoing {
  import opened Wire
  import opened Resources
  import opened SessionSpec
  import opened Ledger
  import opened DeedSpec
  import opened Sessions
  import opened Stories
  import opened Conduct
  import opened Daemons
  import MailPolicy

  // -- Every operation comes from a request -------------------------------------------------

  /** The operation of the i-th request. */
  ghost predicate Drives(v: View, xs: seq<Exchange>, i: nat, e: Effect)
    requires i < |xs|
  {
    && xs[i].request.CallFrame? && KindOf(xs[i].request.call.name).Some?
    && v.configs.For(KindOf(xs[i].request.call.name).value).Some?
    && e.Dispatched?
    && e == Dispatching(v.codec, KindOf(xs[i].request.call.name).value, v.configs.For(KindOf(xs[i].request.call.name).value).value, e.client, xs[i].request.call)
  }

  lemma DeedDrives(v: View, xs: seq<Exchange>, i: nat, e: Effect)
    requires i < |xs| && e in DeedsOf(v, xs[..i], xs[i]) && e.Dispatched?
    ensures Drives(v, xs, i, e)
  {
    var kind := KindOf(xs[i].request.call.name).value;
    assert forall f :: f in Settling(v, kind, xs[..i], xs[i]) ==> !f.Dispatched?;
    assert e in Driving(v, xs[..i], xs[i]);
  }

  lemma {:induction false} DoingHasRequest(v: View, xs: seq<Exchange>, n: nat, e: Effect) returns (i: nat)
    requires n <= |xs| && e in Doings(v, xs[..n]) && e.Dispatched?
    ensures i < n && Drives(v, xs, i, e)
    decreases n
  {
    DoingsSnoc(v, xs, n - 1);
    if e in DeedsOf(v, xs[..n - 1], xs[n - 1]) {
      DeedDrives(v, xs, n - 1, e);
      i := n - 1;
    } else {
      i := DoingHasRequest(v, xs, n - 1, e);
    }
  }

  /** Whatever an operation of a session hands over is accounted for by one of its own mail calls: the message
      stands for that call's payload, field by field, and complies with the configuration. */
  ghost predicate Accounted(g: Ground, script: Script, config: MailConfig, message: MailPolicy.Message) {
    exists i :: 0 <= i < |script.exchanges| && Calls(script.exchanges[i], Mail) && AccountedBy(g, script.exchanges[i], config, message)
  }

  ghost predicate AccountedBy(g: Ground, x: Exchange, config: MailConfig, message: MailPolicy.Message)
    requires x.request.CallFrame?
  {
    && x.request.call.action == "send"
    && g.codec.mail.decode(x.request.call.payload).Ok?
    && MailPolicy.StandsFor(g.codec.mail, g.codec.mail.decode(x.request.call.payload).value, config.from, message)
    && MailPolicy.Compliant(g.codec.mail, config, message)
  }

  /** Only open sessions operate, and only in serving requests. */
  lemma OperationsAreDoings(g: Ground, script: Script, allow: bool, total: nat, e: Effect)
    requires e in Prescribed(g, script, allow, total, |script.exchanges|) && e.Dispatched?
    ensures Open(g, script).Opened? && e in Doings(ViewOf(g, script, allow), script.exchanges[..|script.exchanges|])
  {
    assert forall f :: f in PROLOGUE ==> !f.Dispatched?;
  }

  lemma DriveIsAccounted(g: Ground, script: Script, allow: bool, i: nat, e: Effect)
    requires i < |script.exchanges| && Open(g, script).Opened?
    requires Drives(ViewOf(g, script, allow), script.exchanges, i, e) && e.handed.Some?
    ensures e.binding.MailBinding? && Accounted(g, script, e.binding.mailConfig, e.handed.value)
  {
    var x := script.exchanges[i];
    assert Calls(x, Mail);
    MailPolicy.HandedIsCompliant(g.codec.mail, e.binding.mailConfig, x.request.call.action, x.request.call.payload);
    assert AccountedBy(g, x, e.binding.mailConfig, e.handed.value);
  }

  lemma PrescribedIsAccounted(g: Ground, script: Script, allow: bool, total: nat, e: Effect)
    requires e in Prescribed(g, script, allow, total, |script.exchanges|)
    requires e.Dispatched? && e.handed.Some?
    ensures e.binding.MailBinding? && Accounted(g, script, e.binding.mailConfig, e.handed.value)
  {
    OperationsAreDoings(g, script, allow, total, e);
    var i := DoingHasRequest(ViewOf(g, script, allow), script.exchanges, |script.exchanges|, e);
    DriveIsAccounted(g, script, allow, i, e);
  }

  /** In every run, every message any session hands to a transport is the one that a payload of that
      session stands for, addressed to exactly the recipients it names, and within the policy of the mail
      resource that the session's own tenant has in the table under the name its `Init` gave. */
  lemma EveryMessageComplies(cfg: Config, scripts: map<nat, Script>, moves: seq<Move>, i: nat)
    requires i < |Run(cfg, Boot(scripts), moves).log|
    requires var e := Run(cfg, Boot(scripts), moves).log[i].effect; e.Dispatched? && e.handed.Some?
    ensures var entry := Run(cfg, Boot(scripts), moves).log[i];
      && entry.sid in scripts && Accepted(scripts[entry.sid])
      && var init := scripts[entry.sid].first.value.init;
      && init.mail.Some? && init.mail.value in cfg.table
      && var row := cfg.table[init.mail.value];
      && row.tenant == init.tenant && row.binding.MailBinding?
      && Accounted(cfg.Ground(), scripts[entry.sid], row.binding.mailConfig, entry.effect.handed.value)
      && MailPolicy.Compliant(cfg.codec.mail, row.binding.mailConfig, entry.effect.handed.value)
  {
    var log := Run(cfg, Boot(scripts), moves).log;
    var e, sid := log[i].effect, log[i].sid;
    CredentialsStayWithTheirTenant(cfg, scripts, moves, i);
    EntryIsProjected(log, i);
    var s := After(cfg, scripts, moves, sid);
    var allow :| Possible(s, allow);
    InterleavedEqualsAlone(cfg, scripts, moves, sid, allow);
    PrescribedIsAccounted(cfg.Ground(), scripts[sid], allow, TotalTold(Deeds(cfg, scripts, moves, sid)), e);
    AccountedComplies(cfg.Ground(), scripts[sid], e.binding.mailConfig, e.handed.value);
  }

  lemma AccountedComplies(g: Ground, script: Script, config: MailConfig, message: MailPolicy.Message)
    requires Accounted(g, script, config, message)
    ensures MailPolicy.Compliant(g.codec.mail, config, message)
  {
    var i :| 0 <= i < |script.exchanges| && Calls(script.exchanges[i], Mail) && AccountedBy(g, script.exchanges[i], config, message);
  }

  // -- The budget -----------------------------------------------------------------------------

  lemma {:induction false} FilterAppend(a: seq<Effect>, b: seq<Effect>, topic: Topic)
    ensures Filter(a + b, topic) == Filter(a, topic) + Filter(b, topic)
    decreases |b|
  {
    if b == [] {
      assert a + b == a;
    } else {
      var n := |b| - 1;
      assert (a + b)[..|a + b| - 1] == a + b[..n];
      FilterAppend(a, b[..n], topic);
    }
  }

  /** One request drives its own kind at most once, exactly when it is metered. */
  lemma DeedsAreMetered(v: View, kind: Kind, past: seq<Exchange>, x: Exchange)
    ensures |Filter(DeedsOf(v, past, x), DispatchOf(kind))| == if Calls(x, kind) && Reached(v, past, x) then 1 else 0
  {
    if x.request.CallFrame? && KindOf(x.request.call.name).Some? {
      var called := KindOf(x.request.call.name).value;
      FilterAppend(Settling(v, called, past, x), Driving(v, past, x), DispatchOf(kind));
      SettlingDrivesNothing(v, called, past, x, kind);
      DrivingIsMetered(v, kind, past, x);
    }
  }

  lemma SettlingDrivesNothing(v: View, called: Kind, past: seq<Exchange>, x: Exchange, kind: Kind)
    ensures Filter(Settling(v, called, past, x), DispatchOf(kind)) == []
  {
    NothingAbout(Settling(v, called, past, x), DispatchOf(kind));
  }

  lemma DrivingIsMetered(v: View, kind: Kind, past: seq<Exchange>, x: Exchange)
    ensures |Filter(Driving(v, past, x), DispatchOf(kind))| == if Calls(x, kind) && Reached(v, past, x) then 1 else 0
  {
    if Reached(v, past, x) {
      DrivingIsOne(v, past, x);
      FilterOne(Driving(v, past, x)[0], DispatchOf(kind));
    }
  }

  lemma DrivingIsOne(v: View, past: seq<Exchange>, x: Exchange)
    requires Reached(v, past, x)
    ensures var ops := Driving(v, past, x);
      |ops| == 1 && ops == [ops[0]] && ops[0].Dispatched? && Calls(x, ops[0].binding.Kind())
  {
  }

  /** Operations and metrics are as many. */
  lemma {:induction false} DoingsAreMetered(v: View, kind: Kind, xs: seq<Exchange>)
    ensures |Filter(Doings(v, xs), DispatchOf(kind))| == |History(v, kind, xs)|
    decreases |xs|
  {
    if xs != [] {
      var past, x := xs[..|xs| - 1], xs[|xs| - 1];
      DoingsAreMetered(v, kind, past);
      FilterAppend(Doings(v, past), DeedsOf(v, past, x), DispatchOf(kind));
      DeedsAreMetered(v, kind, past, x);
    }
  }

  lemma FilterOfPrefix(part: seq<Effect>, whole: seq<Effect>, topic: Topic)
    requires part <= whole
    ensures |Filter(part, topic)| <= |Filter(whole, topic)|
  {
    assert whole == part + whole[|part|..];
    FilterAppend(part, whole[|part|..], topic);
  }

  lemma PrescribedIsInBudget(g: Ground, script: Script, allow: bool, total: nat)
    requires Open(g, script).Opened? && Open(g, script).configs.mail.Some?
    requires Open(g, script).configs.mail.value.maxSends != 0
    ensures |Filter(Prescribed(g, script, allow, total, |script.exchanges|), DispatchOf(Mail))|
         <= Open(g, script).configs.mail.value.maxSends
  {
    OpenPrescribes(g, script, allow, total, |script.exchanges|);
    assert script.exchanges[..|script.exchanges|] == script.exchanges;
    DrivesOnlyMetered(ViewOf(g, script, allow), Mail, script.exchanges);
    MailBudgetHolds(ViewOf(g, script, allow), script.exchanges);
  }

  lemma DrivesOnlyMetered(v: View, kind: Kind, xs: seq<Exchange>)
    ensures |Filter(PROLOGUE + Doings(v, xs), DispatchOf(kind))| == |History(v, kind, xs)|
  {
    FilterAppend(PROLOGUE, Doings(v, xs), DispatchOf(kind));
    PrologueDrivesNothing(kind);
    DoingsAreMetered(v, kind, xs);
  }

  lemma PrologueDrivesNothing(kind: Kind)
    ensures Filter(PROLOGUE, DispatchOf(kind)) == []
  {
    NothingAbout(PROLOGUE, DispatchOf(kind));
  }

  /** In every run and at every moment, a session has carried out no more mail operations than its
      resource's budget, and so handed over no more messages. */
  lemma MailStaysWithinBudget(cfg: Config, scripts: map<nat, Script>, moves: seq<Move>, sid: nat)
    requires sid in scripts
    requires Open(cfg.Ground(), scripts[sid]).Opened? && Open(cfg.Ground(), scripts[sid]).configs.mail.Some?
    requires Open(cfg.Ground(), scripts[sid]).configs.mail.value.maxSends != 0
    ensures |Filter(Deeds(cfg, scripts, moves, sid), DispatchOf(Mail))|
         <= Open(cfg.Ground(), scripts[sid]).configs.mail.value.maxSends
  {
    var s, deeds := After(cfg, scripts, moves, sid), Deeds(cfg, scripts, moves, sid);
    var allow :| Possible(s, allow);
    InterleavedEqualsAlone(cfg, scripts, moves, sid, allow);
    PrescribedIsInBudget(cfg.Ground(), scripts[sid], allow, TotalTold(deeds));
    FilterOfPrefix(deeds, Prescribed(cfg.Ground(), scripts[sid], allow, TotalTold(deeds), |scripts[sid].exchanges|), DispatchOf(Mail));
  }
}
