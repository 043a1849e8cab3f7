/** The `mongodb://` connection string (crates/fabric-backends/src/mongo.rs, `build_uri`, `encode`).
    Text is UTF-8 with one character per byte. */
module MongoUri {
  import opened Wire
  import opened Resources
  import opened Numerals

  // -- Percent-encoding (section 2.1 of RFC 3986) ---------------------------------

  predicate IsText(s: string) {
    forall i :: 0 <= i < |s| ==> s[i] as int < 256
  }

  predicate IsAlnum(c: char) {
    '0' <= c <= '9' || 'A' <= c <= 'Z' || 'a' <= c <= 'z'
  }

  function HexDigit(n: nat): char
    requires n < 16
  {
    if n < 10 then '0' + n as char else 'A' + (n - 10) as char
  }

  function HexValue(c: char): Option<nat> {
    if '0' <= c <= '9' then Some(c as int - '0' as int)
    else if 'A' <= c <= 'F' then Some(c as int - 'A' as int + 10)
    else None
  }

  function EncodeByte(c: char): string
    requires c as int < 256
  {
    if IsAlnum(c) then [c] else ['%', HexDigit(c as int / 16), HexDigit(c as int % 16)]
  }

  /** Escapes everything but ASCII letters and digits. */
  function Encode(s: string): (e: string)
    requires IsText(s)
    ensures forall i :: 0 <= i < |e| ==> IsAlnum(e[i]) || e[i] == '%'
  {
    if s == [] then [] else EncodeByte(s[0]) + Encode(s[1..])
  }

  function Decode(e: string): Option<string>
    decreases |e|
  {
    if e == [] then Some([])
    else if IsAlnum(e[0]) then
      (match Decode(e[1..]) case Some(rest) => Some([e[0]] + rest) case None => None)
    else if e[0] == '%' && |e| >= 3 && HexValue(e[1]).Some? && HexValue(e[2]).Some? then
      var code := 16 * HexValue(e[1]).value + HexValue(e[2]).value;
      (match Decode(e[3..]) case Some(rest) => Some([code as char] + rest) case None => None)
    else None
  }

  /** Encoding is reversible. */
  lemma {:induction false} DecodeInvertsEncode(s: string)
    requires IsText(s)
    ensures Decode(Encode(s)) == Some(s)
  {
    if s != [] {
      var e := Encode(s);
      DecodeInvertsEncode(s[1..]);
      assert s == [s[0]] + s[1..];
      if IsAlnum(s[0]) {
        assert e[1..] == Encode(s[1..]);
      } else {
        assert e[3..] == Encode(s[1..]);
        var n := s[0] as int;
        assert HexValue(e[1]) == Some(n / 16) && HexValue(e[2]) == Some(n % 16);
      }
    }
  }

  lemma EncodedIsClean(s: string)
    requires IsText(s)
    ensures var e := Encode(s); '@' !in e && ':' !in e && '/' !in e && '?' !in e && '#' !in e && '&' !in e
  {
    var e := Encode(s);
    forall c | c in e ensures IsAlnum(c) || c == '%' {
      var i :| 0 <= i < |e| && e[i] == c;
    }
  }

  // -- The printer ------------------------------------------------------------------

  const SCHEME := "mongodb://"
  const DIRECT := "?directConnection=true&appName=runlet"
  const CONNECT := "&connectTimeoutMS=5000"
  const SELECTION := "&serverSelectionTimeoutMS=5000"
  const AUTH_SOURCE := "&authSource="
  const TLS := "&tls=true"
  const CA_FILE := "&tlsCAFile="

  function Shared(): string {
    DIRECT + CONNECT + SELECTION
  }

  /** The options every connection string carries. */
  function Fixed(): string {
    ['/'] + Shared()
  }

  /** The fields the connection string is made of are text. */
  predicate Printable(config: MongoConfig) {
    && IsText(config.host) && IsText(config.authSource)
    && (config.username.Some? ==> IsText(config.username.value))
    && (config.password.Some? ==> IsText(config.password.value))
    && (config.caCert.Some? ==> IsText(config.caCert.value))
  }

  /** What a connection string says. */
  datatype Spec = Spec(
    username: Option<string>, password: Option<string>, host: string, port: nat,
    authSource: Option<string>, tls: bool, ca: Option<string>)

  /** What a configuration means to say: no password or auth source without a username, no CA file
      without TLS. */
  function Meaning(config: MongoConfig): Spec {
    Spec(config.username, if config.username.Some? then config.password else None,
         config.host, config.port,
         if config.username.Some? then Some(config.authSource) else None,
         config.tls, if config.tls then config.caCert else None)
  }

  predicate TextSpec(spec: Spec) {
    && (spec.username.Some? ==> IsText(spec.username.value))
    && (spec.password.Some? ==> IsText(spec.password.value))
    && (spec.authSource.Some? ==> IsText(spec.authSource.value))
    && (spec.ca.Some? ==> IsText(spec.ca.value))
    && (spec.username.Some? <==> spec.authSource.Some?)
    && (spec.password.Some? ==> spec.username.Some?)
    && (spec.ca.Some? ==> spec.tls)
  }

  function UserText(spec: Spec): string
    requires TextSpec(spec)
  {
    if spec.username.None? then ""
    else if spec.password.None? then Encode(spec.username.value)
    else Encode(spec.username.value) + [':'] + Encode(spec.password.value)
  }

  /** Everything between the scheme and the port. */
  function LeftText(spec: Spec): string
    requires TextSpec(spec)
  {
    if spec.username.None? then spec.host else UserText(spec) + ['@'] + spec.host
  }

  function AuthText(spec: Spec): string
    requires TextSpec(spec)
  {
    if spec.authSource.Some? then AUTH_SOURCE + Encode(spec.authSource.value) else ""
  }

  function TlsText(spec: Spec): string
    requires TextSpec(spec)
  {
    if !spec.tls then ""
    else if spec.ca.None? then TLS
    else TLS + CA_FILE + Encode(spec.ca.value)
  }

  function Print(spec: Spec): string
    requires TextSpec(spec)
  {
    SCHEME + LeftText(spec) + [':'] + Natural(spec.port) + Fixed() + (AuthText(spec) + TlsText(spec))
  }

  /** Pushes the credentials and the host. */
  method PushAuthority(config: MongoConfig) returns (text: string)
    requires Printable(config)
    ensures text == LeftText(Meaning(config))
  {
    text := "";
    if config.username.Some? {
      text := Encode(config.username.value);
      if config.password.Some? {
        text := text + [':'];
        text := text + Encode(config.password.value);
      }
      assert text == UserText(Meaning(config));
      text := text + ['@'];
      text := text + config.host;
    } else {
      text := config.host;
    }
  }

  /** Pushes one option and its encoded value. */
  method PushOption(text: string, name: string, value: string) returns (after: string)
    requires IsText(value)
    ensures after == text + (name + Encode(value))
  {
    after := text + name;
    after := after + Encode(value);
  }

  /** Pushes the TLS options. */
  method PushTls(text: string, config: MongoConfig) returns (after: string)
    requires Printable(config)
    ensures after == text + TlsText(Meaning(config))
  {
    after := text;
    if config.tls {
      after := after + TLS;
      if config.caCert.Some? {
        after := PushOption(after, CA_FILE, config.caCert.value);
        Associative(text, TLS, CA_FILE + Encode(config.caCert.value));
        Associative(TLS, CA_FILE, Encode(config.caCert.value));
      }
    }
  }

  /** Pushes the options that depend on the configuration. */
  method PushOptions(text: string, config: MongoConfig) returns (after: string)
    requires Printable(config)
    ensures after == text + AuthText(Meaning(config)) + TlsText(Meaning(config))
  {
    after := text;
    if config.username.Some? {
      after := PushOption(after, AUTH_SOURCE, config.authSource);
    }
    after := PushTls(after, config);
  }

  /** The code: pushes onto one string. Whatever the configuration, the result is the print of what it
      means. */
  method BuildUri(config: MongoConfig) returns (uri: string)
    requires Printable(config)
    ensures uri == Print(Meaning(config))
  {
    var authority := PushAuthority(config);
    uri := SCHEME + authority;
    uri := uri + [':'];
    uri := uri + Natural(config.port);
    uri := uri + Fixed();
    ghost var head := uri;
    uri := PushOptions(uri, config);
    Associative(head, AuthText(Meaning(config)), TlsText(Meaning(config)));
  }

  // -- A reader, from right to left ---------------------------------------------------

  /** Splits at the first occurrence of a character. */
  function CutFirst(s: string, c: char): (r: Option<(string, string)>)
    ensures r.Some? ==> |r.value.0| + 1 + |r.value.1| == |s|
  {
    if s == [] then None
    else if s[0] == c then Some(([], s[1..]))
    else match CutFirst(s[1..], c) case None => None case Some((a, b)) => Some(([s[0]] + a, b))
  }

  /** Splits at the last occurrence of a character. */
  function CutLast(s: string, c: char): Option<(string, string)> {
    if s == [] then None
    else if s[|s| - 1] == c then Some((s[..|s| - 1], []))
    else match CutLast(s[..|s| - 1], c) case None => None case Some((a, b)) => Some((a, b + [s[|s| - 1]]))
  }

  lemma {:induction false} CutFirstFinds(a: string, c: char, b: string)
    requires c !in a
    ensures CutFirst(a + [c] + b, c) == Some((a, b))
    decreases |a|
  {
    var s := a + [c] + b;
    if a == [] {
      assert s[1..] == b;
    } else {
      assert s[1..] == a[1..] + [c] + b;
      CutFirstFinds(a[1..], c, b);
      assert a == [a[0]] + a[1..];
    }
  }

  lemma {:induction false} CutFirstMisses(s: string, c: char)
    requires c !in s
    ensures CutFirst(s, c).None?
  {
    if s != [] {
      CutFirstMisses(s[1..], c);
    }
  }

  lemma {:induction false} CutLastFinds(a: string, c: char, b: string)
    requires c !in b
    ensures CutLast(a + [c] + b, c) == Some((a, b))
    decreases |b|
  {
    var s := a + [c] + b;
    if b == [] {
      assert s[..|s| - 1] == a;
    } else {
      var n := |b| - 1;
      assert s[..|s| - 1] == a + [c] + b[..n];
      CutLastFinds(a, c, b[..n]);
      assert b == b[..n] + [b[n]];
    }
  }

  predicate StartsWith(s: string, p: string) {
    |p| <= |s| && s[..|p|] == p
  }

  /** `[&tls=true[&tlsCAFile=..]]` */
  function ReadTls(s: string): Option<(bool, Option<string>)> {
    if s == "" then Some((false, None))
    else if !StartsWith(s, TLS) then None
    else if s == TLS then Some((true, None))
    else if !StartsWith(s[|TLS|..], CA_FILE) then None
    else
      match Decode(s[|TLS| + |CA_FILE|..])
      case None => None
      case Some(ca) => Some((true, Some(ca)))
  }

  /** `[&authSource=..]` and the rest. */
  function ReadAuth(s: string): Option<(Option<string>, string)> {
    if !StartsWith(s, AUTH_SOURCE) then Some((None, s))
    else ReadValue(s[|AUTH_SOURCE|..])
  }

  /** An encoded value, up to the next ampersand. */
  function ReadValue(s: string): Option<(Option<string>, string)> {
    match CutFirst(s, '&')
    case None => (match Decode(s) case None => None case Some(a) => Some((Some(a), "")))
    case Some((v, rest)) => (match Decode(v) case None => None case Some(a) => Some((Some(a), ['&'] + rest)))
  }

  /** `user[:password]` */
  function ReadUser(s: string): Option<(string, Option<string>)> {
    match CutFirst(s, ':')
    case None => (match Decode(s) case None => None case Some(u) => Some((u, None)))
    case Some((u, p)) =>
      match (Decode(u), Decode(p))
      case (Some(user), Some(password)) => Some((user, Some(password)))
      case _ => None
  }

  /** The part before the port, knowing whether credentials are present. */
  function ReadLeft(s: string, credentials: bool): Option<(Option<string>, Option<string>, string)> {
    if !credentials then Some((None, None, s))
    else
      match CutFirst(s, '@')
      case None => None
      case Some((u, host)) =>
        match ReadUser(u)
        case None => None
        case Some((user, password)) => Some((Some(user), password, host))
  }

  /** Once the options are found: the port is at the last colon before them. */
  function ReadParts(head: string, options: string): Option<Spec> {
    if !StartsWith(head, SCHEME) then None
    else
      match (ReadAuth(options), CutLast(head[|SCHEME|..], ':'))
      case (Some((source, rest)), Some((left, port))) =>
        if !AllDigits(port) then None
        else
          (match (ReadTls(rest), ReadLeft(left, source.Some?))
           case (Some((tls, ca)), Some((user, password, host))) =>
             Some(Spec(user, password, host, ReadNatural(port), source, tls, ca))
           case _ => None)
      case _ => None
  }

  /** The options are found at the last slash. */
  function Read(uri: string): Option<Spec> {
    match CutLast(uri, '/')
    case None => None
    case Some((head, tail)) =>
      if StartsWith(tail, Shared()) then ReadParts(head, tail[|Shared()|..]) else None
  }

  lemma ReadsTls(spec: Spec)
    requires TextSpec(spec)
    ensures ReadTls(TlsText(spec)) == Some((spec.tls, spec.ca))
  {
    if spec.tls && spec.ca.Some? {
      var s := TlsText(spec);
      assert s[..|TLS|] == TLS;
      assert s[|TLS|..] == CA_FILE + Encode(spec.ca.value);
      assert s[|TLS|..][..|CA_FILE|] == CA_FILE;
      assert s[|TLS| + |CA_FILE|..] == Encode(spec.ca.value);
      DecodeInvertsEncode(spec.ca.value);
    }
  }

  /** A name in front is recognised and taken off. */
  lemma NameInFront(name: string, value: string, rest: string)
    ensures var s := name + value + rest; StartsWith(s, name) && s[|name|..] == value + rest
  {
  }

  lemma TlsTextStarts(spec: Spec)
    requires TextSpec(spec)
    ensures var t := TlsText(spec); t == "" || (|t| >= 2 && t[0] == '&' && t[1] == 't')
  {
  }

  /** No auth source: what follows does not look like one. */
  lemma NotAnAuthSource(s: string)
    requires s == "" || (|s| >= 2 && s[0] == '&' && s[1] == 't')
    ensures ReadAuth(s) == Some((None, s))
  {
    assert AUTH_SOURCE[1] == 'a';
  }

  /** The value of an option ends at the next ampersand or at the end. */
  lemma ValueEnds(value: string, rest: string)
    requires IsText(value)
    requires rest == "" || rest[0] == '&'
    ensures ReadValue(Encode(value) + rest) == Some((Some(value), rest))
  {
    EncodedIsClean(value);
    DecodeInvertsEncode(value);
    if rest == "" {
      assert Encode(value) + rest == Encode(value);
      CutFirstMisses(Encode(value), '&');
    } else {
      TextEndsAt(Encode(value), value, rest);
    }
  }

  lemma TextEndsAt(text: string, value: string, rest: string)
    requires '&' !in text && Decode(text) == Some(value)
    requires rest != "" && rest[0] == '&'
    ensures ReadValue(text + rest) == Some((Some(value), rest))
  {
    assert rest == ['&'] + rest[1..];
    assert text + rest == text + ['&'] + rest[1..];
    CutFirstFinds(text, '&', rest[1..]);
  }

  lemma ReadsAuth(spec: Spec)
    requires TextSpec(spec)
    ensures ReadAuth(AuthText(spec) + TlsText(spec)) == Some((spec.authSource, TlsText(spec)))
  {
    TlsTextStarts(spec);
    if spec.authSource.None? {
      assert AuthText(spec) + TlsText(spec) == TlsText(spec);
      NotAnAuthSource(TlsText(spec));
    } else {
      NameInFront(AUTH_SOURCE, Encode(spec.authSource.value), TlsText(spec));
      ValueEnds(spec.authSource.value, TlsText(spec));
    }
  }

  lemma ReadsLeft(spec: Spec)
    requires TextSpec(spec)
    ensures ReadLeft(LeftText(spec), spec.authSource.Some?) == Some((spec.username, spec.password, spec.host))
  {
    if spec.username.Some? {
      var user := Encode(spec.username.value);
      EncodedIsClean(spec.username.value);
      DecodeInvertsEncode(spec.username.value);
      if spec.password.Some? {
        var password := Encode(spec.password.value);
        EncodedIsClean(spec.password.value);
        DecodeInvertsEncode(spec.password.value);
        CutFirstFinds(user, ':', password);
      } else {
        CutFirstMisses(user, ':');
      }
      CutFirstFinds(UserText(spec), '@', spec.host);
    }
  }

  lemma NamesAreClean()
    ensures '/' !in AUTH_SOURCE && '/' !in TLS && '/' !in CA_FILE
  {
  }

  lemma DirectIsClean()
    ensures '/' !in DIRECT
  {
  }

  lemma TimeoutsAreClean()
    ensures '/' !in CONNECT && '/' !in SELECTION
  {
  }

  lemma OptionsAreClean(spec: Spec)
    requires TextSpec(spec)
    ensures '/' !in AuthText(spec) + TlsText(spec)
  {
    if spec.authSource.Some? { EncodedIsClean(spec.authSource.value); }
    if spec.ca.Some? { EncodedIsClean(spec.ca.value); }
    NamesAreClean();
    assert '/' !in AuthText(spec);
    assert '/' !in TlsText(spec);
  }

  /** The last slash of a print is the one that starts the options. */
  lemma FindsOptions(head: string, opts: string)
    requires '/' !in opts
    ensures CutLast(head + Fixed() + opts, '/') == Some((head, Shared() + opts))
  {
    DirectIsClean();
    TimeoutsAreClean();
    var tail := Shared() + opts;
    assert '/' !in tail;
    assert head + Fixed() + opts == head + ['/'] + tail;
    CutLastFinds(head, '/', tail);
  }

  lemma FindsPort(spec: Spec)
    requires TextSpec(spec)
    ensures var head := SCHEME + LeftText(spec) + [':'] + Natural(spec.port);
      StartsWith(head, SCHEME) && CutLast(head[|SCHEME|..], ':') == Some((LeftText(spec), Natural(spec.port)))
  {
    var head := SCHEME + LeftText(spec) + [':'] + Natural(spec.port);
    assert head[..|SCHEME|] == SCHEME;
    assert head[|SCHEME|..] == LeftText(spec) + [':'] + Natural(spec.port);
    assert ':' !in Natural(spec.port) by {
      assert !IsDigit(':');
    }
    CutLastFinds(LeftText(spec), ':', Natural(spec.port));
  }

  lemma ReadsParts(spec: Spec)
    requires TextSpec(spec)
    ensures ReadParts(SCHEME + LeftText(spec) + [':'] + Natural(spec.port), AuthText(spec) + TlsText(spec)) == Some(spec)
  {
    FindsPort(spec);
    ReadsAuth(spec);
    ReadsTls(spec);
    ReadsLeft(spec);
    ReadsWhatWasPrinted(spec.port);
  }

  /** A faithful printer: whatever the host contains, the reader recovers exactly what was printed. */
  lemma ReadInvertsPrint(spec: Spec)
    requires TextSpec(spec)
    ensures Read(Print(spec)) == Some(spec)
  {
    var opts := AuthText(spec) + TlsText(spec);
    var head := SCHEME + LeftText(spec) + [':'] + Natural(spec.port);
    OptionsAreClean(spec);
    FindsOptions(head, opts);
    var tail := Shared() + opts;
    assert tail[..|Shared()|] == Shared() && tail[|Shared()|..] == opts;
    ReadsParts(spec);
  }

  /** Everything a configuration says is recovered from what is built of it: host, port, user and TLS flag
      always, password and auth source exactly when there is a user, the CA file exactly when there is TLS. */
  lemma ConfigurationIsRecovered(config: MongoConfig)
    requires Printable(config)
    ensures var r := Read(Print(Meaning(config)));
      && r.Some?
      && r.value.host == config.host && r.value.port == config.port
      && r.value.username == config.username && r.value.tls == config.tls
      && r.value.password == (if config.username.Some? then config.password else None)
      && r.value.authSource == (if config.username.Some? then Some(config.authSource) else None)
      && r.value.ca == (if config.tls then config.caCert else None)
  {
    ReadInvertsPrint(Meaning(config));
  }

  /** Two configurations print alike exactly when they agree on host, port, user and TLS flag and - where these
      have a meaning at all - on password, auth source and CA file. No host, however odd, makes two different
      meanings collide. */
  lemma PrintAlikeMeansAlike(one: MongoConfig, two: MongoConfig)
    requires Printable(one) && Printable(two)
    ensures Print(Meaning(one)) == Print(Meaning(two)) <==>
      && one.host == two.host && one.port == two.port && one.username == two.username && one.tls == two.tls
      && (one.username.Some? ==> one.password == two.password && one.authSource == two.authSource)
      && (one.tls ==> one.caCert == two.caCert)
  {
    ReadInvertsPrint(Meaning(one));
    ReadInvertsPrint(Meaning(two));
  }

  // -- What the options say, as a reader of query strings sees it ----------------------------

  /** One option: up to the first equals sign its name, then its value. */
  function Pair(s: string): (string, string) {
    match CutFirst(s, '=') case None => (s, "") case Some(p) => p
  }

  /** Options separated by ampersands. */
  function Pairs(s: string): seq<(string, string)>
    decreases |s|
  {
    match CutFirst(s, '&')
    case None => [Pair(s)]
    case Some((first, rest)) => [Pair(first)] + Pairs(rest)
  }

  function Item(p: (string, string)): string {
    p.0 + ['='] + p.1
  }

  function Items(ps: seq<(string, string)>): string {
    if ps == [] then [] else ['&'] + Item(ps[0]) + Items(ps[1..])
  }

  ghost predicate Separable(p: (string, string)) {
    '&' !in p.0 && '=' !in p.0 && '&' !in p.1
  }

  lemma PairOfItem(p: (string, string))
    requires Separable(p)
    ensures Pair(Item(p)) == p && '&' !in Item(p)
  {
    CutFirstFinds(p.0, '=', p.1);
  }

  lemma {:induction false} PairsOfItems(p: (string, string), ps: seq<(string, string)>)
    requires Separable(p) && forall i :: 0 <= i < |ps| ==> Separable(ps[i])
    ensures Pairs(Item(p) + Items(ps)) == [p] + ps
    decreases |ps|
  {
    PairOfItem(p);
    if ps == [] {
      assert Item(p) + Items(ps) == Item(p);
      CutFirstMisses(Item(p), '&');
    } else {
      var rest := Item(ps[0]) + Items(ps[1..]);
      assert Item(p) + Items(ps) == Item(p) + ['&'] + rest;
      CutFirstFinds(Item(p), '&', rest);
      PairsOfItems(ps[0], ps[1..]);
      assert ps == [ps[0]] + ps[1..];
    }
  }

  lemma {:induction false} ItemsAppend(ps: seq<(string, string)>, qs: seq<(string, string)>)
    ensures Items(ps + qs) == Items(ps) + Items(qs)
    decreases |ps|
  {
    if ps == [] {
      assert ps + qs == qs;
    } else {
      assert (ps + qs)[1..] == ps[1..] + qs;
      ItemsAppend(ps[1..], qs);
    }
  }

  lemma ItemsOne(p: (string, string))
    ensures Items([p]) == ['&'] + Item(p)
  {
    assert [p][1..] == [];
  }

  /** The options, by name: four that are always the same, the auth source with a user, and TLS with its CA file
      if there is one. */
  function Options(config: MongoConfig): seq<(string, string)>
    requires Printable(config)
  {
    [("directConnection", "true"), ("appName", "runlet"), ("connectTimeoutMS", "5000"), ("serverSelectionTimeoutMS", "5000")]
    + (if config.username.Some? then [("authSource", Encode(config.authSource))] else [])
    + (if config.tls then [("tls", "true")] else [])
    + (if config.tls && config.caCert.Some? then [("tlsCAFile", Encode(config.caCert.value))] else [])
  }

  lemma DirectReads()
    ensures DIRECT == ['?'] + (Item(("directConnection", "true")) + (['&'] + Item(("appName", "runlet"))))
  {
  }

  lemma ConnectReads()
    ensures CONNECT == ['&'] + Item(("connectTimeoutMS", "5000"))
  {
  }

  lemma SelectionReads()
    ensures SELECTION == ['&'] + Item(("serverSelectionTimeoutMS", "5000"))
  {
  }

  lemma AuthSourceReads(value: string)
    ensures AUTH_SOURCE + value == ['&'] + Item(("authSource", value))
  {
  }

  lemma TlsReads()
    ensures TLS == ['&'] + Item(("tls", "true"))
  {
  }

  lemma CaFileReads(value: string)
    ensures CA_FILE + value == ['&'] + Item(("tlsCAFile", value))
  {
  }

  function AlwaysAfterFirst(): seq<(string, string)> {
    [("appName", "runlet"), ("connectTimeoutMS", "5000"), ("serverSelectionTimeoutMS", "5000")]
  }

  lemma SharedReads()
    ensures Shared() == ['?'] + (Item(("directConnection", "true")) + Items(AlwaysAfterFirst()))
  {
    DirectReads();
    ConnectReads();
    SelectionReads();
    var a, b, c := ("appName", "runlet"), ("connectTimeoutMS", "5000"), ("serverSelectionTimeoutMS", "5000");
    ItemsThree(a, b, c);
    Shuffle(['?'], Item(("directConnection", "true")), ['&'] + Item(a), ['&'] + Item(b), ['&'] + Item(c));
  }

  lemma ItemsThree(a: (string, string), b: (string, string), c: (string, string))
    ensures Items([a, b, c]) == ['&'] + Item(a) + (['&'] + Item(b)) + (['&'] + Item(c))
  {
    assert [a, b, c] == [a] + [b] + [c];
    ItemsAppend([a] + [b], [c]);
    ItemsAppend([a], [b]);
    ItemsOne(a);
    ItemsOne(b);
    ItemsOne(c);
  }

  lemma Shuffle(q: string, d: string, a: string, b: string, c: string)
    ensures q + (d + a) + b + c == q + (d + (a + b + c))
  {
  }

  function Chosen(config: MongoConfig): seq<(string, string)>
    requires Printable(config)
  {
    (if config.username.Some? then [("authSource", Encode(config.authSource))] else [])
    + (if config.tls then [("tls", "true")] else [])
    + (if config.tls && config.caCert.Some? then [("tlsCAFile", Encode(config.caCert.value))] else [])
  }

  lemma AuthTextReads(config: MongoConfig)
    requires Printable(config)
    ensures AuthText(Meaning(config)) ==
      Items(if config.username.Some? then [("authSource", Encode(config.authSource))] else [])
  {
    if config.username.Some? {
      AuthSourceReads(Encode(config.authSource));
      ItemsOne(("authSource", Encode(config.authSource)));
    }
  }

  lemma TlsTextReads(config: MongoConfig)
    requires Printable(config)
    ensures TlsText(Meaning(config)) ==
      Items(if config.tls then [("tls", "true")] else [])
      + Items(if config.tls && config.caCert.Some? then [("tlsCAFile", Encode(config.caCert.value))] else [])
  {
    if config.tls {
      TlsReads();
      ItemsOne(("tls", "true"));
      if config.caCert.Some? {
        CaFileReads(Encode(config.caCert.value));
        ItemsOne(("tlsCAFile", Encode(config.caCert.value)));
        Associative(TLS, CA_FILE, Encode(config.caCert.value));
      }
    }
  }

  lemma ChosenReads(config: MongoConfig)
    requires Printable(config)
    ensures AuthText(Meaning(config)) + TlsText(Meaning(config)) == Items(Chosen(config))
  {
    AuthTextReads(config);
    TlsTextReads(config);
    var auth := if config.username.Some? then [("authSource", Encode(config.authSource))] else [];
    var tls := if config.tls then [("tls", "true")] else [];
    var ca := if config.tls && config.caCert.Some? then [("tlsCAFile", Encode(config.caCert.value))] else [];
    ItemsAppend(auth + tls, ca);
    ItemsAppend(auth, tls);
    Associative(Items(auth), Items(tls), Items(ca));
  }

  lemma NamesSeparate()
    ensures Separable(("directConnection", "true"))
    ensures forall i :: 0 <= i < |AlwaysAfterFirst()| ==> Separable(AlwaysAfterFirst()[i])
    ensures Separable(("tls", "true"))
    ensures '&' !in "authSource" && '=' !in "authSource" && '&' !in "tlsCAFile" && '=' !in "tlsCAFile"
  {
  }

  lemma ChosenSeparate(config: MongoConfig)
    requires Printable(config)
    ensures forall i :: 0 <= i < |Chosen(config)| ==> Separable(Chosen(config)[i])
  {
    NamesSeparate();
    EncodedIsClean(config.authSource);
    if config.caCert.Some? {
      EncodedIsClean(config.caCert.value);
    }
  }

  /** What is built: the scheme, the authority, and after `/?` options that any reader of query strings sees as
      exactly the ones meant. */
  lemma OptionsAreRead(config: MongoConfig) returns (authority: string, query: string)
    requires Printable(config)
    ensures Print(Meaning(config)) == "mongodb://" + authority + ['/', '?'] + query
    ensures authority == LeftText(Meaning(config)) + [':'] + Natural(config.port)
    ensures Pairs(query) == Options(config)
  {
    authority := LeftText(Meaning(config)) + [':'] + Natural(config.port);
    query := Query(config);
    QueryIsRead(config);
    QueryIsPrinted(config);
  }

  function Query(config: MongoConfig): string
    requires Printable(config)
  {
    Item(("directConnection", "true")) + Items(AlwaysAfterFirst() + Chosen(config))
  }

  lemma QueryIsRead(config: MongoConfig)
    requires Printable(config)
    ensures Pairs(Query(config)) == Options(config)
  {
    NamesSeparate();
    ChosenSeparate(config);
    PairsOfItems(("directConnection", "true"), AlwaysAfterFirst() + Chosen(config));
    OptionsInOrder(config);
  }

  lemma QueryIsPrinted(config: MongoConfig)
    requires Printable(config)
    ensures Print(Meaning(config)) == SCHEME + (LeftText(Meaning(config)) + [':'] + Natural(config.port)) + ['/', '?'] + Query(config)
  {
    var first := ("directConnection", "true");
    SharedReads();
    ChosenReads(config);
    ItemsAppend(AlwaysAfterFirst(), Chosen(config));
    assert ['/'] + ['?'] == ['/', '?'];
    Assemble(SCHEME, LeftText(Meaning(config)), [':'], Natural(config.port), ['/'], ['?'],
             Item(first), Items(AlwaysAfterFirst()), Items(Chosen(config)));
  }

  lemma OptionsInOrder(config: MongoConfig)
    requires Printable(config)
    ensures Options(config) == [("directConnection", "true")] + (AlwaysAfterFirst() + Chosen(config))
  {
  }

  lemma Assemble(scheme: string, left: string, colon: string, port: string, slash: string, mark: string,
                 first: string, always: string, chosen: string)
    ensures scheme + left + colon + port + (slash + (mark + (first + always))) + chosen
         == scheme + (left + colon + port) + (slash + mark) + (first + (always + chosen))
  {
  }

  /** The authority: encoded user and password before an at sign if there is a user, then the host as it is and
      the port. */
  lemma AuthorityIsRead(config: MongoConfig)
    requires Printable(config)
    ensures config.username.None? ==> LeftText(Meaning(config)) == config.host
    ensures config.username.Some? && config.password.None? ==>
      LeftText(Meaning(config)) == Encode(config.username.value) + "@" + config.host
    ensures config.username.Some? && config.password.Some? ==>
      LeftText(Meaning(config)) == Encode(config.username.value) + ":" + Encode(config.password.value) + "@" + config.host
  {
  }

  /** Letters and digits stand for themselves; any other byte becomes a percent sign and two hexadecimal digits. */
  lemma EncodesByteByByte(c: char)
    requires c as int < 256
    ensures IsAlnum(c) ==> EncodeByte(c) == [c]
    ensures !IsAlnum(c) ==> EncodeByte(c) == ['%', "0123456789ABCDEF"[c as int / 16], "0123456789ABCDEF"[c as int % 16]]
  {
  }

  // -- A reader from left to right ------------------------------------------------------

  /** What lies between the scheme and the path. */
  datatype Authority = Authority(user: Option<string>, host: string, port: string)

  predicate EndsAuthority(c: char) {
    c == '/' || c == '?' || c == '#'
  }

  /** Section 3.2 of RFC 3986: the authority runs up to the first slash, question mark or hash. */
  function UpToPath(s: string): string {
    if s == [] || EndsAuthority(s[0]) then [] else [s[0]] + UpToPath(s[1..])
  }

  /** Sections 3.2.2 and 3.2.3 of RFC 3986, as far as delimiters go: a host in brackets runs up to the
      closing one and only a port may follow; any other host runs up to the first colon. */
  function ReadHostPort(user: Option<string>, s: string): Option<Authority> {
    if s != [] && s[0] == '[' then
      match CutFirst(s, ']')
      case None => None
      case Some((inner, rest)) =>
        if rest == [] then Some(Authority(user, inner + [']'], ""))
        else if rest[0] == ':' then Some(Authority(user, inner + [']'], rest[1..]))
        else None
    else
      match CutFirst(s, ':')
      case None => Some(Authority(user, s, ""))
      case Some((host, port)) => Some(Authority(user, host, port))
  }

  /** Section 3.2.1 of RFC 3986: userinfo runs up to an at sign. The characters between the delimiters are
      not checked. */
  function ReadAuthority(uri: string): Option<Authority>
    requires |uri| >= |SCHEME|
  {
    var authority := UpToPath(uri[|SCHEME|..]);
    match CutFirst(authority, '@')
    case None => ReadHostPort(None, authority)
    case Some((user, rest)) => ReadHostPort(Some(user), rest)
  }

  /** An address in brackets, as IP literals are written. */
  predicate Bracketed(host: string) {
    |host| >= 2 && host[0] == '[' && host[|host| - 1] == ']' && ']' !in host[..|host| - 1]
  }

  /** Hosts whose end is where the reader finds it. */
  predicate WholeHost(host: string) {
    if host != [] && host[0] == '[' then Bracketed(host) else ':' !in host
  }

  predicate EndsNowhere(host: string) {
    forall i :: 0 <= i < |host| ==> !EndsAuthority(host[i])
  }

  /** Hosts that the reader leaves whole. */
  predicate CleanHost(spec: Spec) {
    EndsNowhere(spec.host) && WholeHost(spec.host) && (spec.username.None? ==> '@' !in spec.host)
  }

  lemma {:induction false} UpToPathStops(a: string, d: char, b: string)
    requires forall i :: 0 <= i < |a| ==> !EndsAuthority(a[i])
    requires EndsAuthority(d)
    ensures UpToPath(a + [d] + b) == a
    decreases |a|
  {
    if a != [] {
      assert (a + [d] + b)[1..] == a[1..] + [d] + b;
      UpToPathStops(a[1..], d, b);
    }
  }

  lemma {:induction false} UpToPathIsClean(s: string)
    ensures forall i :: 0 <= i < |UpToPath(s)| ==> !EndsAuthority(UpToPath(s)[i])
  {
    if s != [] && !EndsAuthority(s[0]) {
      UpToPathIsClean(s[1..]);
    }
  }

  /** A cut neither invents characters nor leaves its mark in the first part. */
  lemma {:induction false} CutFirstParts(s: string, c: char)
    ensures CutFirst(s, c).None? <==> c !in s
    ensures CutFirst(s, c).Some? ==>
      var (a, b) := CutFirst(s, c).value;
      c !in a && (forall x :: x in a ==> x in s) && (forall x :: x in b ==> x in s)
  {
    if s != [] && s[0] != c {
      CutFirstParts(s[1..], c);
      assert s == [s[0]] + s[1..];
    }
  }

  function UserOf(spec: Spec): Option<string>
    requires TextSpec(spec)
  {
    if spec.username.Some? then Some(UserText(spec)) else None
  }

  /** Past the userinfo, the reader is at the host and the port. */
  lemma ReadsUpToHost(spec: Spec, rest: string)
    requires TextSpec(spec) && EndsNowhere(spec.host) && (spec.username.None? ==> '@' !in spec.host)
    ensures ReadAuthority(SCHEME + (LeftText(spec) + [':'] + Natural(spec.port) + ['/'] + rest))
      == ReadHostPort(UserOf(spec), spec.host + [':'] + Natural(spec.port))
  {
    var authority := LeftText(spec) + [':'] + Natural(spec.port);
    var whole := SCHEME + (authority + ['/'] + rest);
    assert whole[|SCHEME|..] == authority + ['/'] + rest;
    UserIsClean(spec);
    UpToPathStops(authority, '/', rest);
    if spec.username.Some? {
      assert authority == UserText(spec) + ['@'] + (spec.host + [':'] + Natural(spec.port));
      CutFirstFinds(UserText(spec), '@', spec.host + [':'] + Natural(spec.port));
    } else {
      assert '@' !in authority;
      CutFirstMisses(authority, '@');
    }
  }

  lemma UserIsClean(spec: Spec)
    requires TextSpec(spec)
    ensures var user := UserText(spec);
      '@' !in user && forall i :: 0 <= i < |user| ==> !EndsAuthority(user[i])
    ensures '@' !in Natural(spec.port)
  {
    var user := UserText(spec);
    if spec.username.Some? { EncodedIsClean(spec.username.value); }
    if spec.password.Some? { EncodedIsClean(spec.password.value); }
    forall i | 0 <= i < |user| ensures !EndsAuthority(user[i]) {
      assert user[i] in user;
    }
    assert !IsDigit('@');
  }

  /** Host and port are told apart exactly when the host ends where the reader finds it. */
  lemma HostIsReadIffWhole(user: Option<string>, host: string, port: string)
    ensures ReadHostPort(user, host + [':'] + port) == Some(Authority(user, host, port)) <==> WholeHost(host)
  {
    var s := host + [':'] + port;
    if host != [] && host[0] == '[' {
      CutFirstParts(s, ']');
      if Bracketed(host) {
        var inner := host[..|host| - 1];
        assert host == inner + [']'];
        assert s == inner + [']'] + ([':'] + port);
        CutFirstFinds(inner, ']', [':'] + port);
      } else if CutFirst(s, ']').Some? {
        NotBracketed(host, CutFirst(s, ']').value.0);
      }
    } else if ':' !in host {
      CutFirstFinds(host, ':', port);
    } else {
      CutFirstParts(s, ':');
    }
  }

  lemma NotBracketed(host: string, inner: string)
    requires host != [] && host[0] == '[' && !Bracketed(host) && ']' !in inner
    ensures inner + [']'] != host
  {
    var read := inner + [']'];
    assert read[..|read| - 1] == inner;
  }

  /** Nothing that ends an authority is ever read as part of a host. */
  lemma HostsEndNowhere(uri: string)
    requires |uri| >= |SCHEME| && ReadAuthority(uri).Some?
    ensures EndsNowhere(ReadAuthority(uri).value.host)
  {
    var authority := UpToPath(uri[|SCHEME|..]);
    UpToPathIsClean(uri[|SCHEME|..]);
    CutFirstParts(authority, '@');
    var cut := CutFirst(authority, '@');
    var rest := if cut.Some? then cut.value.1 else authority;
    assert forall c :: c in rest ==> c in authority;
    HostIsWithin(if cut.Some? then Some(cut.value.0) else None, rest);
    var host := ReadAuthority(uri).value.host;
    forall i | 0 <= i < |host| ensures !EndsAuthority(host[i]) {
      assert host[i] in host;
    }
  }

  lemma HostIsWithin(user: Option<string>, s: string)
    requires ReadHostPort(user, s).Some?
    ensures forall c :: c in ReadHostPort(user, s).value.host ==> c in s
  {
    CutFirstParts(s, ':');
    CutFirstParts(s, ']');
  }

  /** Without credentials, an at sign in the host is mistaken for the end of a userinfo. */
  lemma StrayUserIsRead(host: string, port: string, rest: string)
    requires EndsNowhere(host) && AllDigits(port) && '@' in host
    ensures var r := ReadAuthority(SCHEME + (host + [':'] + port + ['/'] + rest)); r.Some? ==> r.value.user.Some?
  {
    var authority := host + [':'] + port;
    var text := authority + ['/'] + rest;
    assert (SCHEME + text)[|SCHEME|..] == text;
    UpToPathStops(authority, '/', rest);
    CutFirstParts(authority, '@');
  }

  lemma PrintSplits(spec: Spec)
    requires TextSpec(spec)
    ensures Print(spec) == SCHEME
      + (LeftText(spec) + [':'] + Natural(spec.port) + ['/'] + (Shared() + (AuthText(spec) + TlsText(spec))))
  {
    Regroup(SCHEME, LeftText(spec), [':'], Natural(spec.port), ['/'], Shared(), AuthText(spec) + TlsText(spec));
  }

  lemma Regroup(a: string, b: string, c: string, d: string, e: string, f: string, g: string)
    ensures a + b + c + d + (e + f) + g == a + (b + c + d + e + (f + g))
  {
  }

  /** Reading a printed connection string from the left gives back its userinfo, host and port exactly when
      the host is clean. */
  lemma LeftReadingIffCleanHost(spec: Spec)
    requires TextSpec(spec)
    ensures |Print(spec)| >= |SCHEME|
    ensures ReadAuthority(Print(spec)) == Some(Authority(UserOf(spec), spec.host, Natural(spec.port))) <==> CleanHost(spec)
  {
    PrintSplits(spec);
    var rest := Shared() + (AuthText(spec) + TlsText(spec));
    if !EndsNowhere(spec.host) {
      if ReadAuthority(Print(spec)).Some? {
        HostsEndNowhere(Print(spec));
      }
    } else if spec.username.None? && '@' in spec.host {
      StrayUserIsRead(spec.host, Natural(spec.port), rest);
    } else {
      ReadsUpToHost(spec, rest);
      HostIsReadIffWhole(UserOf(spec), spec.host, Natural(spec.port));
    }
  }

  /** A server without credentials and without TLS. */
  function Bare(host: string, port: nat): Spec {
    Spec(None, None, host, port, None, false, None)
  }

  /** What is printed for the host is read back from the left. */
  predicate ReadsBack(host: string, port: nat) {
    var uri := Print(Bare(host, port));
    |uri| >= |SCHEME| && ReadAuthority(uri) == Some(Authority(None, host, Natural(port)))
  }

  lemma ReadsBackIffClean(host: string, port: nat)
    ensures ReadsBack(host, port) <==> EndsNowhere(host) && WholeHost(host) && '@' !in host
  {
    LeftReadingIffCleanHost(Bare(host, port));
  }

  /** Cases in point: an IPv6 address is read back when it is bracketed and not when it is bare; a host with
      a slash in it is not. */
  lemma SomeHosts(port: nat)
    ensures ReadsBack("[::1]", port) && !ReadsBack("::1", port) && !ReadsBack("db/a", port)
  {
    BracketedIsWhole();
    ReadsBackIffClean("[::1]", port);
    BareAddressIsNotWhole();
    ReadsBackIffClean("::1", port);
    SlashEnds();
    ReadsBackIffClean("db/a", port);
  }

  lemma BracketedIsWhole()
    ensures var host := "[::1]"; EndsNowhere(host) && WholeHost(host) && '@' !in host
  {
  }

  lemma BareAddressIsNotWhole()
    ensures !WholeHost("::1")
  {
    assert "::1"[0] == ':';
  }

  lemma SlashEnds()
    ensures !EndsNowhere("db/a")
  {
    assert EndsAuthority("db/a"[2]);
  }
}
