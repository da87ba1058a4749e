/**
 * The console client's request pipeline: `SecurityHandler` writes the two token
 * headers before each send, and `RetryHandler` with the `fallBack` of
 * `CreateSecuRetryHandler` resends once, after `BuildTokens`, when the answer is
 * 401. The certificate handler at the bottom is the network boundary: it
 * records what was sent and answers with a given response.
 */
module Transport {
  import opened Wrappers
  import opened TokenGate

  /**
   * Request headers: each name carries a list of values. Header names compare
   * without regard to case, so the map is keyed by `NameKey` of the name: two
   * names differing only in case address the same entry, and no collection
   * holds two case variants of one name.
   */
  type Headers = h: map<string, seq<string>> | forall key :: key in h ==> NameKey(key) == key
    witness map[]

  const KeyManagerTokenHeader: string := "keyManagerToken"
  const SessionTokenHeader: string := "sessionToken"
  const Unauthorized: int := 401

  /** What the inner handler does with one send: an HTTP status, or an I/O exception. */
  datatype InnerResponse = Answer(status: int) | IoFailure

  datatype SendError = Io | Auth(error: AuthError)

  /** What `RetryHandler.SendAsync` yields: a response, or the exception it raised. */
  datatype SendResult = Responded(status: int) | Raised(error: SendError)

  /** Header names are ASCII tokens; `A`..`Z` fold to `a`..`z`. */
  function FoldChar(c: char): char
  {
    if 'A' <= c <= 'Z' then (c as int + 32) as char else c
  }

  /** The key a header name is stored and looked up under. */
  function NameKey(name: string): (k: string)
    ensures |k| == |name|
    ensures forall i :: 0 <= i < |name| ==> k[i] == FoldChar(name[i])
  {
    seq(|name|, i requires 0 <= i < |name| => FoldChar(name[i]))
  }

  /** Folding a name twice is folding it once, so every folded name is a valid key. */
  lemma NameKeyIdempotent(name: string)
    ensures NameKey(NameKey(name)) == NameKey(name)
  {
  }

  /** A provider's value; a token never built (null) is modelled as the empty value. */
  function HeaderValue(token: Option<string>): string
  {
    GetOr(token, "")
  }

  /** `headersProvider` of `CreateSecuHandler`, evaluated against the current tokens. */
  function SecurityProviders(t: TokenState): seq<(string, string)>
  {
    [(KeyManagerTokenHeader, HeaderValue(t.keyManagerToken)), (SessionTokenHeader, HeaderValue(t.sessionToken))]
  }

  /** `Headers.Add(name, value)`: appends one value to the list of the name's entry. */
  function AddValue(h: Headers, name: string, value: string): (r: Headers)
    ensures r.Keys == h.Keys + {NameKey(name)}
    ensures NameKey(name) in h ==> r[NameKey(name)] == h[NameKey(name)] + [value]
    ensures NameKey(name) !in h ==> r[NameKey(name)] == [value]
    ensures forall key :: key in h && key != NameKey(name) ==> r[key] == h[key]
  {
    NameKeyIdempotent(name);
    var key := NameKey(name);
    h[key := (if key in h then h[key] else []) + [value]]
  }

  /** `Remove(name)` followed by `Add(name, value)` leaves exactly `value` under the name. */
  lemma RemoveThenAdd(h: Headers, name: string, value: string)
    ensures AddValue(h - {NameKey(name)}, name, value) == h[NameKey(name) := [value]]
  {
    NameKeyIdempotent(name);
    var r := AddValue(h - {NameKey(name)}, name, value);
    assert r.Keys == h.Keys + {NameKey(name)};
  }

  /** The value of the last provider whose name is stored under `key`, if any. */
  function LastValueFor(ps: seq<(string, string)>, key: string): Option<string>
    decreases |ps|
  {
    if ps == [] then None
    else if NameKey(ps[|ps| - 1].0) == key then Some(ps[|ps| - 1].1)
    else LastValueFor(ps[..|ps| - 1], key)
  }

  /**
   * The header loop: for each provider, `Remove(key)` drops the entry of that
   * name in whatever case it was written, then `Add(key, value)`.
   */
  function Inject(h: Headers, ps: seq<(string, string)>): (r: Headers)
    ensures h.Keys <= r.Keys
    ensures forall key :: key in r && key !in h ==> |r[key]| == 1
    decreases |ps|
  {
    if ps == [] then h
    else
      var n := |ps| - 1;
      NameKeyIdempotent(ps[n].0);
      Inject(h, ps[..n])[NameKey(ps[n].0) := [ps[n].1]]
  }

  /**
   * After the loop every provided name carries exactly one value, the last one
   * provided for it, whatever it (or a variant of it in another case) carried
   * before; every other header is untouched.
   */
  lemma {:induction false} InjectAt(h: Headers, ps: seq<(string, string)>, key: string)
    ensures LastValueFor(ps, key).Some? ==>
      key in Inject(h, ps) && Inject(h, ps)[key] == [LastValueFor(ps, key).value]
    ensures LastValueFor(ps, key).None? ==>
      (key in Inject(h, ps) <==> key in h) && (key in h ==> Inject(h, ps)[key] == h[key])
    decreases |ps|
  {
    if ps != [] {
      InjectAt(h, ps[..|ps| - 1], key);
    }
  }

  /**
   * `SecurityHandler` sets `keyManagerToken` and `sessionToken` (whatever case
   * a stale copy was written in) to exactly the current token values and
   * leaves every other header as it was.
   */
  lemma SecurityHeaders(h: Headers, t: TokenState)
    ensures var r := Inject(h, SecurityProviders(t));
      && NameKey(KeyManagerTokenHeader) in r && NameKey(SessionTokenHeader) in r
      && r[NameKey(KeyManagerTokenHeader)] == [HeaderValue(t.keyManagerToken)]
      && r[NameKey(SessionTokenHeader)] == [HeaderValue(t.sessionToken)]
      && forall key :: key != NameKey(KeyManagerTokenHeader) && key != NameKey(SessionTokenHeader) ==>
           (key in r <==> key in h) && (key in h ==> r[key] == h[key])
  {
    var ps := SecurityProviders(t);
    assert NameKey(KeyManagerTokenHeader) != NameKey(SessionTokenHeader) by {
      assert NameKey(KeyManagerTokenHeader)[0] == 'k';
      assert NameKey(SessionTokenHeader)[0] == 's';
    }
    assert ps[..1] == [ps[0]] && ps[..1][..0] == [];
    assert LastValueFor(ps, NameKey(KeyManagerTokenHeader)) == Some(HeaderValue(t.keyManagerToken));
    assert LastValueFor(ps, NameKey(SessionTokenHeader)) == Some(HeaderValue(t.sessionToken));
    InjectAt(h, ps, NameKey(KeyManagerTokenHeader));
    InjectAt(h, ps, NameKey(SessionTokenHeader));
    forall key | key != NameKey(KeyManagerTokenHeader) && key != NameKey(SessionTokenHeader)
      ensures (key in Inject(h, ps) <==> key in h) && (key in h ==> Inject(h, ps)[key] == h[key])
    {
      assert LastValueFor(ps[..1], key) == None;
      assert LastValueFor(ps, key) == None;
      InjectAt(h, ps, key);
    }
  }

  /**
   * A stale token header written as `SessionToken` is the entry `Remove`
   * drops: after the loop the request carries only the current session token
   * under that name.
   */
  lemma StaleCaseVariantReplaced(h: Headers, t: TokenState, stale: string)
    ensures var r := Inject(AddValue(h, "SessionToken", stale), SecurityProviders(t));
      NameKey("SessionToken") in r && r[NameKey("SessionToken")] == [HeaderValue(t.sessionToken)]
  {
    assert NameKey("SessionToken") == NameKey(SessionTokenHeader);
    SecurityHeaders(AddValue(h, "SessionToken", stale), t);
  }

  /** Writing the same token values a second time changes nothing. */
  lemma SecurityHeadersIdempotent(h: Headers, t: TokenState)
    ensures Inject(Inject(h, SecurityProviders(t)), SecurityProviders(t)) == Inject(h, SecurityProviders(t))
  {
    var once := Inject(h, SecurityProviders(t));
    SecurityHeaders(h, t);
    SecurityHeaders(once, t);
  }

  /** Everything one request through the retrying pipeline does. */
  datatype RetryTrace = RetryTrace(tokens: TokenState, result: SendResult, sent: seq<Headers>, authCalls: nat)

  /** The decision `fallBack` takes on the first response. */
  predicate NeedsRefresh(response: InnerResponse)
  {
    response.Answer? && response.status == Unauthorized
  }

  /**
   * `RetryHandler.SendAsync` with this `fallBack`: send through the security
   * handler; on a 401, call `BuildTokens` and, if it returns, send the same
   * request once more and return whatever that yields.
   */
  function Retry(t: TokenState, h: Headers, first: InnerResponse, second: InnerResponse, b: BuildInputs): (r: RetryTrace)
    ensures 1 <= |r.sent| <= 2
    ensures |r.sent| == 2 <==> NeedsRefresh(first) && Build(t, b).outcome == Pass
    ensures r.sent[0] == Inject(h, SecurityProviders(t))
    ensures !NeedsRefresh(first) ==>
      r.tokens == t && r.authCalls == 0 &&
      r.result == (if first.IoFailure? then Raised(Io) else Responded(first.status))
    ensures NeedsRefresh(first) ==>
      r.tokens == Build(t, b).tokens && r.authCalls == Build(t, b).authCalls
    ensures |r.sent| == 2 ==>
      r.result == (if second.IoFailure? then Raised(Io) else Responded(second.status))
    ensures |r.sent| == 2 ==> r.sent[1] == Inject(r.sent[0], SecurityProviders(r.tokens))
    ensures NeedsRefresh(first) && Build(t, b).outcome.Fail? ==> r.result == Raised(Auth(Build(t, b).outcome.error))
  {
    var sent0 := Inject(h, SecurityProviders(t));
    if !NeedsRefresh(first) then
      RetryTrace(t, if first.IoFailure? then Raised(Io) else Responded(first.status), [sent0], 0)
    else
      var br := Build(t, b);
      match br.outcome
      case Fail(e) => RetryTrace(br.tokens, Raised(Auth(e)), [sent0], br.authCalls)
      case Pass =>
        var sent1 := Inject(sent0, SecurityProviders(br.tokens));
        RetryTrace(br.tokens, if second.IoFailure? then Raised(Io) else Responded(second.status), [sent0, sent1], br.authCalls)
  }

  /**
   * There is no forced refresh: a 401 that arrives within a minute of the last
   * build does not call the endpoints, and the retry goes out with exactly the
   * headers of the first attempt.
   */
  lemma RetryWithinAMinuteResendsSameTokens(t: TokenState, h: Headers, first: InnerResponse, second: InnerResponse, b: BuildInputs)
    requires NeedsRefresh(first)
    requires t.lastBuild.Some? && b.nowOnEntry - t.lastBuild.value <= OneMinute
    ensures var r := Retry(t, h, first, second, b);
      |r.sent| == 2 && r.sent[1] == r.sent[0] && r.authCalls == 0 && r.tokens == t
  {
    SecurityHeadersIdempotent(h, t);
  }

  /** After a refresh that completes, the retry carries the two new tokens. */
  lemma RetryAfterRefreshCarriesNewTokens(t: TokenState, h: Headers, first: InnerResponse, second: InnerResponse, b: BuildInputs)
    requires NeedsRefresh(first)
    requires CanGoIn(t.lastBuild, b.nowOnEntry) && CanGoIn(t.lastBuild, b.nowAfterLock)
    requires b.sessionAuth.Success? && b.keyAuth.Success?
    ensures var r := Retry(t, h, first, second, b);
      && |r.sent| == 2
      && NameKey(SessionTokenHeader) in r.sent[1] && NameKey(KeyManagerTokenHeader) in r.sent[1]
      && r.sent[1][NameKey(SessionTokenHeader)] == [b.sessionAuth.value]
      && r.sent[1][NameKey(KeyManagerTokenHeader)] == [b.keyAuth.value]
  {
    SecurityHeaders(Inject(h, SecurityProviders(t)), Build(t, b).tokens);
    assert Build(t, b).tokens.sessionToken == Some(b.sessionAuth.value);
  }

  /** An outgoing request. */
  class Request {
    var headers: Headers

    constructor (h: Headers)
      ensures headers == h
    {
      headers := h;
    }
  }

  /** The certificate handler and the network behind it: records each request and gives the answer supplied. */
  class CertHandler {
    var sent: seq<Headers>

    constructor ()
      ensures sent == []
    {
      sent := [];
    }

    method SendAsync(request: Request, answer: InnerResponse) returns (response: InnerResponse)
      modifies this
      ensures sent == old(sent) + [request.headers]
      ensures response == answer
    {
      sent := sent + [request.headers];
      response := answer;
    }
  }

  class SecurityHandler {
    /** The static token fields the header providers read. */
    const store: TokenStore
    const inner: CertHandler

    constructor (store: TokenStore, inner: CertHandler)
      ensures this.store == store && this.inner == inner
    {
      this.store := store;
      this.inner := inner;
    }

    /** Overwrites the two token headers with the current tokens, then sends. */
    method SendAsync(request: Request, answer: InnerResponse) returns (response: InnerResponse)
      modifies request, inner
      ensures request.headers == Inject(old(request.headers), SecurityProviders(store.State()))
      ensures inner.sent == old(inner.sent) + [request.headers]
      ensures response == answer
    {
      var providers := SecurityProviders(store.State());
      var i := 0;
      while i < |providers|
        invariant 0 <= i <= |providers|
        invariant request.headers == Inject(old(request.headers), providers[..i])
        invariant inner.sent == old(inner.sent)
      {
        var (key, value) := providers[i];
        ghost var before := request.headers;
        request.headers := request.headers - {NameKey(key)};
        request.headers := AddValue(request.headers, key, value);
        RemoveThenAdd(before, key, value);
        assert providers[..i + 1][..i] == providers[..i];
        i := i + 1;
      }
      assert providers[..i] == providers;
      response := inner.SendAsync(request, answer);
    }
  }

  class RetryHandler {
    const inner: SecurityHandler

    constructor (inner: SecurityHandler)
      ensures this.inner == inner
    {
      this.inner := inner;
    }

    /**
     * Sends once and hands the response to `FallBack`. The inner handler sees
     * the request at most twice.
     */
    method SendAsync(request: Request, first: InnerResponse, second: InnerResponse, b: BuildInputs)
      returns (result: SendResult)
      requires !inner.store.locked
      modifies request, inner.inner, inner.store
      ensures !inner.store.locked
      ensures var r := Retry(old(inner.store.State()), old(request.headers), first, second, b);
        && inner.store.State() == r.tokens
        && result == r.result
        && inner.inner.sent == old(inner.inner.sent) + r.sent
    {
      var t := inner.SendAsync(request, first);
      if t.IoFailure? {
        return Raised(Io);
      }
      result := FallBack(t, request, second, b);
    }

    /**
     * The `fallBack` lambda: a response other than 401 is returned as it is;
     * on 401 it runs `BuildTokens` and then the resend closure, once.
     */
    method FallBack(response: InnerResponse, request: Request, second: InnerResponse, b: BuildInputs)
      returns (result: SendResult)
      requires response.Answer? && !inner.store.locked
      modifies request, inner.inner, inner.store
      ensures !inner.store.locked
      ensures !NeedsRefresh(response) ==>
        result == Responded(response.status) && unchanged(inner.store) && unchanged(request) && unchanged(inner.inner)
      ensures NeedsRefresh(response) ==>
        var br := Build(old(inner.store.State()), b);
        && inner.store.State() == br.tokens
        && (br.outcome.Fail? ==> result == Raised(Auth(br.outcome.error)) && unchanged(request) && unchanged(inner.inner))
        && (br.outcome.Pass? ==>
              && result == (if second.IoFailure? then Raised(Io) else Responded(second.status))
              && request.headers == Inject(old(request.headers), SecurityProviders(br.tokens))
              && inner.inner.sent == old(inner.inner.sent) + [request.headers])
    {
      if response.status != Unauthorized {
        return Responded(response.status);
      }
      var outcome, _, _ := inner.store.BuildTokens(b);
      if outcome.Fail? {
        return Raised(Auth(outcome.error));
      }
      var again := inner.SendAsync(request, second);
      result := if again.IoFailure? then Raised(Io) else Responded(again.status);
    }
  }
}
