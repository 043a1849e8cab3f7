/** The cluster key cache and the offline token verifier (crates/fabric-backends/src/sa_token.rs). */
module Jwks {
  import opened Wire

  type Key = nat

  /** One entry of a fetched key set (section 4 of RFC 7517): an optional key id, and the verification
      key it converts to, if it converts. */
  datatype Jwk = Jwk(kid: Option<string>, key: Option<Key>)

  type KeySet = seq<Jwk>

  predicate Usable(jwk: Jwk, kid: string) {
    jwk.kid == Some(kid) && jwk.key.Some?
  }

  /** The last usable entry for a key id. */
  function LastUsable(keys: KeySet, kid: string): Option<Key> {
    if keys == [] then None
    else if Usable(keys[|keys| - 1], kid) then keys[|keys| - 1].key
    else LastUsable(keys[..|keys| - 1], kid)
  }

  /** The i-th entry has the key id and converts, and no later one does both. */
  ghost predicate IsLastUsable(keys: KeySet, kid: string, i: nat) {
    && i < |keys| && keys[i].kid == Some(kid) && keys[i].key.Some?
    && forall j :: i < j < |keys| ==> keys[j].kid != Some(kid) || keys[j].key.None?
  }

  /** The entry that counts is the one at the greatest usable place, if there is any. */
  lemma {:induction false} LastUsableByPlace(keys: KeySet, kid: string)
    ensures forall i: nat :: IsLastUsable(keys, kid, i) ==> LastUsable(keys, kid) == keys[i].key
    ensures LastUsable(keys, kid).Some? <==> exists i: nat :: IsLastUsable(keys, kid, i)
    ensures LastUsable(keys, kid).None? ==> forall i :: 0 <= i < |keys| ==> keys[i].kid != Some(kid) || keys[i].key.None?
    decreases |keys|
  {
    if keys != [] {
      var last, rest := |keys| - 1, keys[..|keys| - 1];
      LastUsableByPlace(rest, kid);
      if Usable(keys[last], kid) {
        assert IsLastUsable(keys, kid, last);
      } else {
        forall i: nat ensures IsLastUsable(keys, kid, i) <==> IsLastUsable(rest, kid, i) {
        }
      }
    }
  }

  /** The loop that fills the key map: for each key id it ends up with the key at the greatest usable place,
      and entries without an id or that do not convert neither add nor erase anything. */
  method BuildKeyMap(keys: KeySet) returns (m: map<string, Key>)
    ensures forall kid :: kid in m <==> LastUsable(keys, kid).Some?
    ensures forall kid :: kid in m ==> LastUsable(keys, kid) == Some(m[kid])
    ensures forall kid :: kid in m <==> exists i: nat :: IsLastUsable(keys, kid, i)
    ensures forall kid, i: nat :: IsLastUsable(keys, kid, i) ==> kid in m && keys[i].key == Some(m[kid])
  {
    m := map[];
    for i := 0 to |keys|
      invariant forall kid :: kid in m <==> LastUsable(keys[..i], kid).Some?
      invariant forall kid :: kid in m ==> LastUsable(keys[..i], kid) == Some(m[kid])
    {
      assert keys[..i + 1][..i] == keys[..i];
      if keys[i].kid.Some? && keys[i].key.Some? {
        m := m[keys[i].kid.value := keys[i].key.value];
      }
    }
    assert keys[..|keys|] == keys;
    forall kid
      ensures kid in m <==> exists i: nat :: IsLastUsable(keys, kid, i)
      ensures forall i: nat :: IsLastUsable(keys, kid, i) ==> kid in m && keys[i].key == Some(m[kid])
    {
      LastUsableByPlace(keys, kid);
    }
  }

  /** A presented token: what its header decodes to. */
  datatype Token = Token(header: Result<Option<string>, string>, body: string)

  datatype VerifyError = KeysNotLoaded | MissingKid | UnknownKid | Invalid(reason: string)

  /** Signature and claim validation under a key (RS256, audience, issuer, expiry). */
  type Checker = (Token, Key) -> Result<(), string>

  /** One event in the life of the verifier: a finished refresh, or a token to judge. */
  datatype Event = Refreshed(fetch: Result<KeySet, string>) | Presented(token: Token)

  /** What the most recent successful fetch brought. */
  function LastFetch(events: seq<Event>): Option<KeySet> {
    if events == [] then None
    else
      var last := events[|events| - 1];
      if last.Refreshed? && last.fetch.Ok? then Some(last.fetch.value)
      else LastFetch(events[..|events| - 1])
  }

  /** The verdict on a token, given everything that happened before and no cache. */
  function Judge(check: Checker, events: seq<Event>, token: Token): Result<(), VerifyError> {
    match token.header
    case Err(reason) => Err(Invalid(reason))
    case Ok(None) => Err(MissingKid)
    case Ok(Some(kid)) =>
      match LastFetch(events)
      case None => Err(KeysNotLoaded)
      case Some(keys) =>
        match LastUsable(keys, kid)
        case None => Err(UnknownKid)
        case Some(key) =>
          match check(token, key)
          case Err(reason) => Err(Invalid(reason))
          case Ok(_) => Ok(())
  }

  /** The r-th event is the last fetch that succeeded. */
  ghost predicate IsLastFetch(events: seq<Event>, r: nat) {
    && r < |events| && Fetched(events[r])
    && forall j :: r < j < |events| ==> !Fetched(events[j])
  }

  ghost predicate Fetched(e: Event) {
    e.Refreshed? && e.fetch.Ok?
  }

  lemma {:induction false} LastFetchByPlace(events: seq<Event>)
    ensures forall r: nat :: IsLastFetch(events, r) ==> LastFetch(events) == Some(events[r].fetch.value)
    ensures LastFetch(events).Some? <==> exists r: nat :: IsLastFetch(events, r)
    ensures LastFetch(events).None? ==> forall i :: 0 <= i < |events| ==> !Fetched(events[i])
    decreases |events|
  {
    if events != [] {
      var last, rest := |events| - 1, events[..|events| - 1];
      LastFetchByPlace(rest);
      if Fetched(events[last]) {
        assert IsLastFetch(events, last);
      } else {
        forall r: nat ensures IsLastFetch(events, r) <==> IsLastFetch(rest, r) {
        }
      }
    }
  }

  /** The token is good under the key at place `i` of the fetch at place `r`. */
  ghost predicate ValidUnder(check: Checker, events: seq<Event>, token: Token, r: nat, i: nat) {
    && token.header.Ok? && token.header.value.Some? && IsLastFetch(events, r)
    && IsLastUsable(events[r].fetch.value, token.header.value.value, i)
    && check(token, events[r].fetch.value[i].key.value).Ok?
  }

  /** A token is accepted if and only if it is good under the last usable key of the last fetch. */
  lemma AcceptedIffValid(check: Checker, events: seq<Event>, token: Token)
    ensures Judge(check, events, token).Ok? <==> exists r: nat, i: nat :: ValidUnder(check, events, token, r, i)
  {
    LastFetchByPlace(events);
    if token.header.Ok? && token.header.value.Some? && LastFetch(events).Some? {
      var kid := token.header.value.value;
      LastUsableByPlace(LastFetch(events).value, kid);
      var r: nat :| IsLastFetch(events, r);
      if LastUsable(events[r].fetch.value, kid).Some? {
        var i: nat :| IsLastUsable(events[r].fetch.value, kid, i);
        if Judge(check, events, token).Ok? {
          assert ValidUnder(check, events, token, r, i);
        }
      }
    }
  }

  /** And what a rejection says. */
  lemma RejectionsSayWhy(check: Checker, events: seq<Event>, token: Token)
    ensures token.header.Err? ==> Judge(check, events, token) == Err(Invalid(token.header.error))
    ensures token.header == Ok(None) ==> Judge(check, events, token) == Err(MissingKid)
    ensures token.header.Ok? && token.header.value.Some? ==>
      var kid, verdict := token.header.value.value, Judge(check, events, token);
      && ((forall r: nat :: !IsLastFetch(events, r)) ==> verdict == Err(KeysNotLoaded))
      && (forall r: nat :: IsLastFetch(events, r) && (forall i: nat :: !IsLastUsable(events[r].fetch.value, kid, i)) ==>
            verdict == Err(UnknownKid))
      && (forall r: nat, i: nat :: IsLastFetch(events, r) && IsLastUsable(events[r].fetch.value, kid, i) ==>
            var key := events[r].fetch.value[i].key.value;
            check(token, key).Err? ==> verdict == Err(Invalid(check(token, key).error)))
  {
    LastFetchByPlace(events);
    if token.header.Ok? && token.header.value.Some? && LastFetch(events).Some? {
      LastUsableByPlace(LastFetch(events).value, token.header.value.value);
    }
  }

  /** The verifier and its shared cache. `events` is all that has happened to it. */
  class Verifier {
    const check: Checker
    var keys: Option<map<string, Key>>
    ghost var events: seq<Event>

    ghost predicate Valid()
      reads this
    {
      && (keys.None? <==> LastFetch(events).None?)
      && (keys.Some? ==> Mirrors(keys.value, LastFetch(events).value))
    }

    constructor (check: Checker)
      ensures Valid() && keys.None? && events == [] && this.check == check
    {
      this.check := check;
      keys := None;
      events := [];
    }

    /** One round of the refresh task: swap on success, keep the previous keys on failure. */
    method Refresh(fetch: Result<KeySet, string>)
      requires Valid()
      modifies this
      ensures Valid() && events == old(events) + [Refreshed(fetch)]
      ensures fetch.Err? ==> keys == old(keys)
      ensures old(keys).Some? ==> keys.Some?
    {
      if fetch.Ok? {
        var m := BuildKeyMap(fetch.value);
        keys := Some(m);
      }
      events := events + [Refreshed(fetch)];
    }

    /** The refresh task over any number of rounds. */
    method RefreshLoop(fetches: seq<Result<KeySet, string>>)
      requires Valid()
      modifies this
      ensures Valid()
      ensures events == old(events) + seq(|fetches|, i requires 0 <= i < |fetches| => Refreshed(fetches[i]))
    {
      ghost var before := events;
      for i := 0 to |fetches|
        invariant Valid()
        invariant events == before + seq(i, j requires 0 <= j < i => Refreshed(fetches[j]))
      {
        Refresh(fetches[i]);
      }
    }

    /** Judges a token offline, from the cache alone; the verdict is the one the events prescribe. */
    method Verify(token: Token) returns (r: Result<(), VerifyError>)
      requires Valid()
      ensures r == Judge(check, events, token)
    {
      if token.header.Err? {
        return Err(Invalid(token.header.error));
      }
      if token.header.value.None? {
        return Err(MissingKid);
      }
      var kid := token.header.value.value;
      if keys.None? {
        return Err(KeysNotLoaded);
      }
      if kid !in keys.value {
        return Err(UnknownKid);
      }
      var verdict := check(token, keys.value[kid]);
      r := if verdict.Err? then Err(Invalid(verdict.error)) else Ok(());
    }
  }

  ghost predicate Mirrors(m: map<string, Key>, keys: KeySet) {
    && (forall kid :: kid in m <==> LastUsable(keys, kid).Some?)
    && (forall kid :: kid in m ==> LastUsable(keys, kid) == Some(m[kid]))
  }

  // -- Over whole runs ----------------------------------------------------------------------

  ghost predicate NeverFetched(events: seq<Event>) {
    forall i :: 0 <= i < |events| ==> events[i].Refreshed? ==> events[i].fetch.Err?
  }

  lemma {:induction false} NothingFetchedNothingLoaded(events: seq<Event>)
    ensures LastFetch(events).None? <==> NeverFetched(events)
    decreases |events|
  {
    if events != [] {
      NothingFetchedNothingLoaded(events[..|events| - 1]);
    }
  }

  /** Fail-closed: until some fetch has succeeded, every token is rejected. */
  lemma RejectsAllBeforeTheFirstFetch(check: Checker, events: seq<Event>, token: Token)
    requires NeverFetched(events)
    ensures Judge(check, events, token).Err?
  {
    NothingFetchedNothingLoaded(events);
  }

  /** Failed refreshes and judgements leave the keys as they are; so once loaded they stay loaded, and
      what counts is always the last successful fetch. */
  lemma {:induction false} FailuresKeepTheKeys(events: seq<Event>, more: seq<Event>)
    requires NeverFetched(more)
    ensures LastFetch(events + more) == LastFetch(events)
    decreases |more|
  {
    if more == [] {
      assert events + more == events;
    } else {
      var n := |more| - 1;
      assert (events + more)[..|events + more| - 1] == events + more[..n];
      FailuresKeepTheKeys(events, more[..n]);
    }
  }

  /** A token is accepted exactly when some fetch succeeded and, in the last one that did, the last
      usable entry under the token's key id validates it. */
  lemma AcceptanceIsAgainstTheLastFetch(check: Checker, before: seq<Event>, keys: KeySet, after: seq<Event>, token: Token)
    requires NeverFetched(after)
    ensures Judge(check, before + [Refreshed(Ok(keys))] + after, token).Ok? <==>
      && token.header.Ok? && token.header.value.Some?
      && LastUsable(keys, token.header.value.value).Some?
      && check(token, LastUsable(keys, token.header.value.value).value).Ok?
  {
    var upTo := before + [Refreshed(Ok(keys))];
    assert upTo[|upTo| - 1] == Refreshed(Ok(keys));
    assert LastFetch(upTo) == Some(keys);
    FailuresKeepTheKeys(upTo, after);
  }

  /** A later entry that cannot be used does not erase an earlier usable one with the same id. */
  lemma UnusableDuplicateErasesNothing(keys: KeySet, later: Jwk, kid: string)
    requires later.kid.None? || later.key.None?
    ensures LastUsable(keys + [later], kid) == LastUsable(keys, kid)
  {
    assert (keys + [later])[..|keys|] == keys;
  }
}
