/** The mail backend (crates/fabric-backends/src/mail.rs): the per-session send budget and what may be
    handed to the transport. Address parsing and case folding are the libraries'. */
module MailPolicy {
  import opened Wire
  import opened Resources
  import opened Numerals

  datatype Mailbox = Mailbox(name: string, domain: string)

  datatype Payload = Payload(
    from: string, to: seq<string>, cc: seq<string>, bcc: seq<string>,
    replyTo: string, subject: string, text: string, html: string)

  datatype Body = Plain(text: string) | Html(html: string) | Alternative(text: string, html: string)

  datatype Message = Message(
    from: Mailbox, to: seq<Mailbox>, cc: seq<Mailbox>, bcc: seq<Mailbox>,
    replyTo: Option<Mailbox>, subject: string, body: Body)

  /** The libraries: JSON decoding of the envelope, address parsing, case folding, and assembling a
      message, which yields its size. */
  datatype Library = Library(
    decode: string -> Result<Payload, string>, parse: string -> Result<Mailbox, string>,
    lower: string -> string, assemble: Message -> Result<nat, string>)

  function Recipients(p: Payload): seq<string> {
    p.to + p.cc + p.bcc
  }

  function Addressees(m: Message): seq<Mailbox> {
    m.to + m.cc + m.bcc
  }

  /** Parses one address, naming the field in the error. */
  function ParseMailbox(lib: Library, address: string, field: string): (r: Result<Mailbox, string>)
    ensures r.Ok? <==> lib.parse(address).Ok?
    ensures r.Ok? ==> r == lib.parse(address)
  {
    match lib.parse(address)
    case Ok(box) => Ok(box)
    case Err(why) => Err("invalid " + field + " address '" + address + "': " + why)
  }

  // -- Domain allowlist -----------------------------------------------------------------

  predicate Listed(lib: Library, allowed: seq<string>, domain: string) {
    exists i :: 0 <= i < |allowed| && lib.lower(allowed[i]) == lib.lower(domain)
  }

  /** Scans the allowlist for a folded domain. */
  method IsListed(lib: Library, allowed: seq<string>, domain: string) returns (found: bool)
    ensures found <==> Listed(lib, allowed, domain)
  {
    found := false;
    for i := 0 to |allowed|
      invariant found <==> exists j :: 0 <= j < i && lib.lower(allowed[j]) == lib.lower(domain)
    {
      if lib.lower(allowed[i]) == lib.lower(domain) {
        found := true;
      }
    }
  }

  /** A recipient that may be written to: it parses and its domain is listed. */
  predicate Permitted(lib: Library, allowed: seq<string>, address: string) {
    lib.parse(address).Ok? && Listed(lib, allowed, lib.parse(address).value.domain)
  }

  predicate WithinDomains(lib: Library, p: Payload, allowed: seq<string>) {
    allowed == [] || forall i :: 0 <= i < |Recipients(p)| ==> Permitted(lib, allowed, Recipients(p)[i])
  }

  /** Rejects the whole send on the first recipient that is not permitted; an empty list permits all. */
  method EnforceDomains(lib: Library, p: Payload, allowed: seq<string>) returns (r: Result<(), string>)
    ensures r.Ok? <==> WithinDomains(lib, p, allowed)
  {
    if allowed == [] {
      return Ok(());
    }
    var all := p.to + p.cc + p.bcc;
    for i := 0 to |all|
      invariant forall j :: 0 <= j < i ==> Permitted(lib, allowed, all[j])
    {
      var mailbox := ParseMailbox(lib, all[i], "recipient");
      if mailbox.Err? {
        assert !Permitted(lib, allowed, Recipients(p)[i]);
        return Err(mailbox.error);
      }
      var listed := IsListed(lib, allowed, mailbox.value.domain);
      if !listed {
        assert !Permitted(lib, allowed, Recipients(p)[i]);
        return Err("recipient domain '" + lib.lower(mailbox.value.domain) + "' is not in allowed_recipient_domains");
      }
    }
    r := Ok(());
  }

  // -- Building the message ---------------------------------------------------------------

  predicate AllParse(lib: Library, addresses: seq<string>) {
    forall i :: 0 <= i < |addresses| ==> lib.parse(addresses[i]).Ok?
  }

  function ParsedAll(lib: Library, addresses: seq<string>): seq<Mailbox>
    requires AllParse(lib, addresses)
  {
    seq(|addresses|, i requires 0 <= i < |addresses| => lib.parse(addresses[i]).value)
  }

  /** One of the recipient loops. */
  method ParseEach(lib: Library, addresses: seq<string>, field: string) returns (r: Result<seq<Mailbox>, string>)
    ensures r.Ok? <==> AllParse(lib, addresses)
    ensures r.Ok? ==> r.value == ParsedAll(lib, addresses)
  {
    var boxes: seq<Mailbox> := [];
    for i := 0 to |addresses|
      invariant AllParse(lib, addresses[..i]) && boxes == ParsedAll(lib, addresses[..i])
    {
      var mailbox := ParseMailbox(lib, addresses[i], field);
      if mailbox.Err? {
        return Err(mailbox.error);
      }
      boxes := boxes + [mailbox.value];
    }
    assert addresses[..|addresses|] == addresses;
    r := Ok(boxes);
  }

  function Sender(p: Payload, defaultFrom: string): string {
    if p.from == "" then defaultFrom else p.from
  }

  function BodyOf(p: Payload): Body {
    if p.text != "" && p.html != "" then Alternative(p.text, p.html)
    else if p.html != "" then Html(p.html)
    else Plain(p.text)
  }

  predicate Addressable(lib: Library, p: Payload, defaultFrom: string) {
    && lib.parse(Sender(p, defaultFrom)).Ok?
    && AllParse(lib, Recipients(p))
    && (p.replyTo != "" ==> lib.parse(p.replyTo).Ok?)
  }

  /** The message a payload stands for: each list of recipients in order and in its own place. */
  function MessageOf(lib: Library, p: Payload, defaultFrom: string): (m: Message)
    requires Addressable(lib, p, defaultFrom)
    ensures Addressees(m) == ParsedAll(lib, Recipients(p))
  {
    SplitParse(lib, p);
    assert Recipients(p)[|p.to|..][..|p.cc|] == p.cc;
    Message(lib.parse(Sender(p, defaultFrom)).value,
            ParsedAll(lib, p.to), ParsedAll(lib, p.cc), ParsedAll(lib, p.bcc),
            if p.replyTo == "" then None else Some(lib.parse(p.replyTo).value), p.subject, BodyOf(p))
  }

  /** Box by box, in the same places, the parses of a list of addresses. */
  ghost predicate Parses(lib: Library, addresses: seq<string>, boxes: seq<Mailbox>) {
    |boxes| == |addresses| && forall i :: 0 <= i < |addresses| ==> lib.parse(addresses[i]) == Ok(boxes[i])
  }

  /** The message a payload asks for, field by field: each recipient in the header the payload puts it in and
      in its place there, the payload's own sender or the default exactly when it gives none, a reply
      address exactly when it gives one, its subject, and the body its two texts call for. */
  ghost predicate StandsFor(lib: Library, p: Payload, defaultFrom: string, m: Message) {
    && Parses(lib, p.to, m.to) && Parses(lib, p.cc, m.cc) && Parses(lib, p.bcc, m.bcc)
    && (p.from != "" ==> lib.parse(p.from) == Ok(m.from))
    && (p.from == "" ==> lib.parse(defaultFrom) == Ok(m.from))
    && (p.replyTo == "" ==> m.replyTo.None?)
    && (p.replyTo != "" ==> m.replyTo.Some? && lib.parse(p.replyTo) == Ok(m.replyTo.value))
    && m.subject == p.subject
    && (p.html == "" ==> m.body == Plain(p.text))
    && (p.html != "" && p.text == "" ==> m.body == Html(p.html))
    && (p.html != "" && p.text != "" ==> m.body == Alternative(p.text, p.html))
  }

  lemma MessageStandsFor(lib: Library, p: Payload, defaultFrom: string)
    requires Addressable(lib, p, defaultFrom)
    ensures StandsFor(lib, p, defaultFrom, MessageOf(lib, p, defaultFrom))
  {
    SplitParse(lib, p);
  }

  /** A message can stand for a payload exactly when every address parses. */
  lemma AddressableIffSomeMessage(lib: Library, p: Payload, defaultFrom: string)
    ensures Addressable(lib, p, defaultFrom) <==> exists m :: StandsFor(lib, p, defaultFrom, m)
  {
    SplitParse(lib, p);
    if Addressable(lib, p, defaultFrom) {
      MessageStandsFor(lib, p, defaultFrom);
    }
  }

  /** The message can be built: every address parses and the library assembles the body. */
  predicate Buildable(lib: Library, p: Payload, defaultFrom: string) {
    Addressable(lib, p, defaultFrom) && lib.assemble(MessageOf(lib, p, defaultFrom)).Ok?
  }

  /** A message ready for the transport, and its size. */
  datatype Prepared = Prepared(message: Message, bytes: nat)

  /** Parses the sender, the three lists of recipients and the reply address. */
  method ParseAddresses(lib: Library, p: Payload, defaultFrom: string) returns (r: Result<Message, string>)
    ensures r.Ok? <==> Addressable(lib, p, defaultFrom)
    ensures r.Ok? ==> r.value == MessageOf(lib, p, defaultFrom) && StandsFor(lib, p, defaultFrom, r.value)
  {
    SplitParse(lib, p);
    if Addressable(lib, p, defaultFrom) {
      MessageStandsFor(lib, p, defaultFrom);
    }
    var from := ParseMailbox(lib, Sender(p, defaultFrom), "from");
    if from.Err? {
      return Err(from.error);
    }
    var to := ParseEach(lib, p.to, "to");
    if to.Err? {
      return Err(to.error);
    }
    var cc := ParseEach(lib, p.cc, "cc");
    if cc.Err? {
      return Err(cc.error);
    }
    var bcc := ParseEach(lib, p.bcc, "bcc");
    if bcc.Err? {
      return Err(bcc.error);
    }
    var replyTo: Option<Mailbox> := None;
    if p.replyTo != "" {
      var box := ParseMailbox(lib, p.replyTo, "reply_to");
      if box.Err? {
        return Err(box.error);
      }
      replyTo := Some(box.value);
    }
    r := Ok(Message(from.value, to.value, cc.value, bcc.value, replyTo, p.subject, BodyOf(p)));
  }

  /** Builds the message; it succeeds exactly when every address parses and the body assembles. */
  method BuildMessage(lib: Library, p: Payload, defaultFrom: string) returns (r: Result<Prepared, string>)
    ensures r.Ok? <==> Buildable(lib, p, defaultFrom)
    ensures r.Ok? ==>
      && r.value.message == MessageOf(lib, p, defaultFrom) && lib.assemble(r.value.message) == Ok(r.value.bytes)
      && StandsFor(lib, p, defaultFrom, r.value.message)
  {
    var addressed := ParseAddresses(lib, p, defaultFrom);
    if addressed.Err? {
      return Err(addressed.error);
    }
    var assembled := lib.assemble(addressed.value);
    if assembled.Err? {
      return Err("failed to build message: " + assembled.error);
    }
    r := Ok(Prepared(addressed.value, assembled.value));
  }

  lemma SplitParse(lib: Library, p: Payload)
    ensures AllParse(lib, Recipients(p)) <==> AllParse(lib, p.to) && AllParse(lib, p.cc) && AllParse(lib, p.bcc)
  {
    var all := Recipients(p);
    if AllParse(lib, all) {
      forall i | 0 <= i < |p.to| ensures lib.parse(p.to[i]).Ok? { assert all[i] == p.to[i]; }
      forall i | 0 <= i < |p.cc| ensures lib.parse(p.cc[i]).Ok? { assert all[|p.to| + i] == p.cc[i]; }
      forall i | 0 <= i < |p.bcc| ensures lib.parse(p.bcc[i]).Ok? { assert all[|p.to| + |p.cc| + i] == p.bcc[i]; }
    }
  }

  // -- Sending ------------------------------------------------------------------------------

  /** What the operator allows to leave. */
  predicate Sendable(lib: Library, config: MailConfig, action: string, payload: string) {
    && action == "send" && lib.decode(payload).Ok?
    && var p := lib.decode(payload).value;
    && 1 <= |Recipients(p)| <= config.maxRecipients
    && WithinDomains(lib, p, config.allowedRecipientDomains)
    && Buildable(lib, p, config.from)
  }

  /** The message an operation hands to the transport, if it gets that far. */
  function Handed(lib: Library, config: MailConfig, action: string, payload: string): Option<Message> {
    if Sendable(lib, config, action, payload) then Some(MessageOf(lib, lib.decode(payload).value, config.from)) else None
  }

  /** A message within the operator's policy: a bounded, non-empty set of recipients, all of them in
      listed domains if there is a list. */
  ghost predicate Compliant(lib: Library, config: MailConfig, m: Message) {
    && 1 <= |m.to| + |m.cc| + |m.bcc| <= config.maxRecipients
    && (config.allowedRecipientDomains != [] ==>
          forall box :: box in m.to + m.cc + m.bcc ==>
            exists allowed :: allowed in config.allowedRecipientDomains && lib.lower(allowed) == lib.lower(box.domain))
  }

  /** Validates and builds; it succeeds exactly when the operation is sendable. */
  method Prepare(lib: Library, config: MailConfig, action: string, payload: string) returns (r: Result<Prepared, string>)
    ensures r.Ok? <==> Sendable(lib, config, action, payload)
    ensures r.Ok? ==>
      && Handed(lib, config, action, payload) == Some(r.value.message)
      && lib.assemble(r.value.message) == Ok(r.value.bytes)
    ensures action != "send" ==> r == Err("unknown mail action: " + action)
    ensures action == "send" && lib.decode(payload).Err? ==> r == Err("invalid mail payload: " + lib.decode(payload).error)
    ensures action == "send" && lib.decode(payload).Ok? ==>
      var n := |Recipients(lib.decode(payload).value)|;
      && (n == 0 ==> r == Err("at least one recipient (to/cc/bcc) is required"))
      && (n > 0 && n > config.maxRecipients ==>
            r == Err("too many recipients: " + Decimal(n) + " (max " + Decimal(config.maxRecipients) + ")"))
  {
    if action != "send" {
      return Err("unknown mail action: " + action);
    }
    var decoded := lib.decode(payload);
    if decoded.Err? {
      return Err("invalid mail payload: " + decoded.error);
    }
    var p := decoded.value;
    var recipients := |p.to| + |p.cc| + |p.bcc|;
    assert recipients == |Recipients(p)|;
    if recipients == 0 {
      return Err("at least one recipient (to/cc/bcc) is required");
    }
    if recipients > config.maxRecipients {
      return Err("too many recipients: " + Decimal(recipients) + " (max " + Decimal(config.maxRecipients) + ")");
    }
    var domains := EnforceDomains(lib, p, config.allowedRecipientDomains);
    if domains.Err? {
      return Err(domains.error);
    }
    r := BuildMessage(lib, p, config.from);
  }

  /** One mail call: its action, its payload, and what the relay would answer. */
  datatype MailCall = MailCall(action: string, payload: string, relay: Result<(bool, string), string>, durationUs: nat)

  /** The figures of a call's metric: zeros unless the relay took the message. */
  function StatsOf(lib: Library, config: MailConfig, c: MailCall): Stats {
    match (Handed(lib, config, c.action, c.payload), c.relay)
    case (Some(message), Ok((accepted, _))) =>
      if lib.assemble(message).Ok? then Stats(|Addressees(message)|, lib.assemble(message).value, accepted) else NO_STATS
    case _ => NO_STATS
  }

  datatype Sent = Sent(message: Option<Message>, result: Result<string, string>, stats: Stats)

  /** Validates, builds and sends. A message reaches the transport exactly when the call is sendable,
      and it is the one its payload stands for. */
  method DoSend(lib: Library, config: MailConfig, c: MailCall) returns (s: Sent)
    ensures s.message == Handed(lib, config, c.action, c.payload)
    ensures s.result.Ok? <==> s.message.Some? && c.relay.Ok?
    ensures s.result.Ok? ==> s.result.value == c.relay.value.1
    ensures s.message.Some? && c.relay.Err? ==> s.result == Err(c.relay.error)
    ensures s.stats == StatsOf(lib, config, c)
    ensures s.result.Ok? ==>
      && s.stats.first == |s.message.value.to| + |s.message.value.cc| + |s.message.value.bcc|
      && lib.assemble(s.message.value) == Ok(s.stats.second) && s.stats.flag == c.relay.value.0
    ensures s.result.Err? ==> s.stats.first == 0 && s.stats.second == 0 && !s.stats.flag
  {
    var prepared := Prepare(lib, config, c.action, c.payload);
    if prepared.Err? {
      return Sent(None, Err(prepared.error), NO_STATS);
    }
    var message := prepared.value.message;
    if c.relay.Err? {
      return Sent(Some(message), Err(c.relay.error), NO_STATS);
    }
    s := Sent(Some(message), Ok(c.relay.value.1), Stats(|Addressees(message)|, prepared.value.bytes, c.relay.value.0));
  }

  /** What is handed over stands for the payload, field by field, and complies. */
  lemma HandedIsCompliant(lib: Library, config: MailConfig, action: string, payload: string)
    requires Handed(lib, config, action, payload).Some?
    ensures var m := Handed(lib, config, action, payload).value;
      && Compliant(lib, config, m)
      && lib.decode(payload).Ok?
      && StandsFor(lib, lib.decode(payload).value, config.from, m)
  {
    var m, p := Handed(lib, config, action, payload).value, lib.decode(payload).value;
    var all, allowed := Recipients(p), config.allowedRecipientDomains;
    MessageStandsFor(lib, p, config.from);
    if allowed != [] {
      forall box | box in m.to + m.cc + m.bcc
        ensures exists a :: a in allowed && lib.lower(a) == lib.lower(box.domain)
      {
        var i :| 0 <= i < |Addressees(m)| && Addressees(m)[i] == box;
        assert Permitted(lib, allowed, all[i]);
        var j :| 0 <= j < |allowed| && lib.lower(allowed[j]) == lib.lower(box.domain);
        assert allowed[j] in allowed;
      }
    }
  }

  /** Exactly when something is handed over: a send whose payload decodes, with a permitted number of
      recipients, all in listed domains if there is a list, for which a message can be built. */
  lemma HandedIffWithinPolicy(lib: Library, config: MailConfig, action: string, payload: string)
    ensures Handed(lib, config, action, payload).Some? <==>
      && action == "send" && lib.decode(payload).Ok?
      && var p := lib.decode(payload).value;
      && 1 <= |p.to| + |p.cc| + |p.bcc| <= config.maxRecipients
      && (config.allowedRecipientDomains == [] || forall address :: address in p.to + p.cc + p.bcc ==>
            InListedDomain(lib, config.allowedRecipientDomains, address))
      && exists m :: StandsFor(lib, p, config.from, m) && lib.assemble(m).Ok?
  {
    if lib.decode(payload).Ok? {
      var p, allowed := lib.decode(payload).value, config.allowedRecipientDomains;
      AddressableIffSomeMessage(lib, p, config.from);
      if Addressable(lib, p, config.from) {
        MessageStandsFor(lib, p, config.from);
        OneMessageStands(lib, p, config.from);
      }
      forall address ensures InListedDomain(lib, allowed, address) <==> Permitted(lib, allowed, address) {
        ListedByMembership(lib, allowed, address);
      }
      forall i | 0 <= i < |Recipients(p)| ensures Recipients(p)[i] in p.to + p.cc + p.bcc {
      }
    }
  }

  ghost predicate InListedDomain(lib: Library, allowed: seq<string>, address: string) {
    lib.parse(address).Ok? && exists a :: a in allowed && lib.lower(a) == lib.lower(lib.parse(address).value.domain)
  }

  lemma ListedByMembership(lib: Library, allowed: seq<string>, address: string)
    ensures InListedDomain(lib, allowed, address) <==> Permitted(lib, allowed, address)
  {
    if Permitted(lib, allowed, address) {
      var j :| 0 <= j < |allowed| && lib.lower(allowed[j]) == lib.lower(lib.parse(address).value.domain);
      assert allowed[j] in allowed;
    }
  }

  /** At most one message stands for a payload. */
  lemma OneMessageStands(lib: Library, p: Payload, defaultFrom: string)
    ensures forall m, n :: StandsFor(lib, p, defaultFrom, m) && StandsFor(lib, p, defaultFrom, n) ==> m == n
  {
    forall m, n | StandsFor(lib, p, defaultFrom, m) && StandsFor(lib, p, defaultFrom, n) ensures m == n {
      SameParses(lib, p.to, m.to, n.to);
      SameParses(lib, p.cc, m.cc, n.cc);
      SameParses(lib, p.bcc, m.bcc, n.bcc);
    }
  }

  lemma SameParses(lib: Library, addresses: seq<string>, boxes: seq<Mailbox>, others: seq<Mailbox>)
    requires Parses(lib, addresses, boxes) && Parses(lib, addresses, others)
    ensures boxes == others
  {
    forall i | 0 <= i < |boxes| ensures boxes[i] == others[i] {
      assert lib.parse(addresses[i]) == Ok(boxes[i]) && lib.parse(addresses[i]) == Ok(others[i]);
    }
  }

  /** The backend of one session: its metrics and everything the transport was ever handed. */
  class MailBackend {
    const lib: Library
    const config: MailConfig
    var metrics: seq<Metric>
    var outbox: seq<Message>

    ghost predicate Valid()
      reads this
    {
      && (config.maxSends != 0 ==> |metrics| <= config.maxSends)
      && |outbox| <= |metrics|
      && (forall i :: 0 <= i < |outbox| ==> Compliant(lib, config, outbox[i]))
    }

    constructor (lib: Library, config: MailConfig)
      ensures Valid() && this.lib == lib && this.config == config && metrics == [] && outbox == []
    {
      this.lib := lib;
      this.config := config;
      metrics := [];
      outbox := [];
    }

    /** One call. A spent budget refuses it and changes nothing; otherwise it is metered once, and a
        message leaves exactly when the call is sendable. */
    method Call(c: MailCall) returns (passed: bool, r: Result<string, string>)
      requires Valid()
      modifies this
      ensures Valid()
      ensures passed <==> config.maxSends == 0 || |old(metrics)| < config.maxSends
      ensures !passed ==>
        && metrics == old(metrics) && outbox == old(outbox)
        && r == Err("too many mail.send calls: limit is " + Decimal(config.maxSends))
      ensures passed ==> metrics == old(metrics) + [Metric(c.action, c.durationUs, StatsOf(lib, config, c))]
      ensures passed ==> var handed := Handed(lib, config, c.action, c.payload);
        outbox == if handed.Some? then old(outbox) + [handed.value] else old(outbox)
    {
      if config.maxSends != 0 && |metrics| >= config.maxSends {
        return false, Err("too many mail.send calls: limit is " + Decimal(config.maxSends));
      }
      var sent := DoSend(lib, config, c);
      if sent.message.Some? {
        HandedIsCompliant(lib, config, c.action, c.payload);
        outbox := outbox + [sent.message.value];
      }
      metrics := metrics + [Metric(c.action, c.durationUs, sent.stats)];
      return true, sent.result;
    }

    /** A whole session of calls: never more than the budget pass, and whatever was handed to the
        transport complies with the policy. */
    method Session(calls: seq<MailCall>) returns (passes: nat)
      requires Valid() && metrics == [] && outbox == []
      modifies this
      ensures Valid() && passes == |metrics|
      ensures passes == if config.maxSends == 0 || |calls| < config.maxSends then |calls| else config.maxSends
      ensures forall i :: 0 <= i < |outbox| ==> Compliant(lib, config, outbox[i])
    {
      passes := 0;
      for i := 0 to |calls|
        invariant Valid() && passes == |metrics|
        invariant passes == if config.maxSends == 0 || i < config.maxSends then i else config.maxSends
      {
        var passed, r := Call(calls[i]);
        if passed {
          passes := passes + 1;
        }
      }
    }
  }
}
