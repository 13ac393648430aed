// The OAuth2 token cache of the token injector: one call of Get, and sequences of
// calls, which the cache's mutex serialises. Times and durations are nanoseconds.
module TokenCache {
  const SECOND: int := 1_000_000_000
  const FALLBACK_SECONDS: int := 300
  const TWO_63: int := 0x8000_0000_0000_0000
  const TWO_64: int := 0x1_0000_0000_0000_0000

  // Durations are 64-bit: a multiplication wraps around.
  function Wrap64(x: int): (r: int)
    ensures -TWO_63 <= r < TWO_63
    ensures -TWO_63 <= x < TWO_63 ==> r == x
    ensures x >= -TWO_63 ==> r <= x
  {
    (x + TWO_63) % TWO_64 - TWO_63
  }

  // ... by whole multiples of 2^64.
  lemma WrapIsCongruent(x: int)
    ensures (x - Wrap64(x)) % TWO_64 == 0
  {
  }

  // What the token endpoint yields: an error, a refused status or an undecodable
  // body; or a decoded response.
  datatype Fetch = FetchFails | Fetched(token: string, expiresIn: int)

  // One call of Get: the clock when the cache is consulted and, later, when the
  // response is in.
  datatype Call = Call(now: int, fetch: Fetch, done: int)

  datatype Cache = Cache(token: string, expiresAt: int)

  datatype Reply = Hit(token: string) | Refreshed(token: string) | Failure

  const EMPTY := Cache("", 0)

  // The lifetime in seconds a response is taken to grant.
  function Lifetime(expiresIn: int): (e: int)
    ensures e > 0
  {
    if expiresIn <= 0 then FALLBACK_SECONDS else expiresIn
  }

  function Get(c: Cache, leeway: int, call: Call): (Cache, Reply) {
    if c.token != "" && c.expiresAt - call.now > leeway then (c, Hit(c.token))
    else if call.fetch.FetchFails? || call.fetch.token == "" then (c, Failure)
    else (Cache(call.fetch.token, call.done + Wrap64(Lifetime(call.fetch.expiresIn) * SECOND)),
          Refreshed(call.fetch.token))
  }

  class TokenCacheObject {
    const leeway: int
    var token: string
    var expiresAt: int

    constructor (leeway: int)
      ensures this.leeway == leeway && Now() == EMPTY
    {
      this.leeway := leeway;
      token, expiresAt := "", 0;
    }

    function Now(): Cache
      reads this
    {
      Cache(token, expiresAt)
    }

    method GetToken(call: Call) returns (reply: Reply)
      modifies this
      ensures (Now(), reply) == Get(old(Now()), leeway, call)
    {
      if token != "" && expiresAt - call.now > leeway {
        return Hit(token);
      }
      match call.fetch {
        case FetchFails => return Failure;
        case Fetched(accessToken, granted) =>
          if accessToken == "" {
            return Failure;
          }
          var expiresIn := granted;
          if expiresIn <= 0 {
            expiresIn := FALLBACK_SECONDS;
          }
          token := accessToken;
          expiresAt := call.done + Wrap64(expiresIn * SECOND);
          return Refreshed(token);
      }
    }
  }

  // ----- Sequences of calls -----

  // The mutex makes calls follow one another in time.
  predicate Serial(calls: seq<Call>) {
    && (forall i :: 0 <= i < |calls| ==> calls[i].now <= calls[i].done)
    && (forall i, j :: 0 <= i < j < |calls| ==> calls[i].done <= calls[j].now)
  }

  function After(calls: seq<Call>, leeway: int, n: nat): Cache
    requires n <= |calls|
  {
    if n == 0 then EMPTY else Get(After(calls, leeway, n - 1), leeway, calls[n - 1]).0
  }

  function ReplyTo(calls: seq<Call>, leeway: int, i: nat): Reply
    requires i < |calls|
  {
    Get(After(calls, leeway, i), leeway, calls[i]).1
  }

  lemma FailedFetchKeepsCache(calls: seq<Call>, leeway: int, i: nat)
    requires i < |calls| && ReplyTo(calls, leeway, i) == Failure
    ensures After(calls, leeway, i + 1) == After(calls, leeway, i)
  {
  }

  // The cached token, if any, was fetched by an earlier call, and its recorded
  // expiry is no later than the one that call's response declared, even where the
  // duration arithmetic wraps.
  lemma {:induction false} CachedTokenOrigin(calls: seq<Call>, leeway: int, n: nat) returns (j: nat)
    requires n <= |calls| && After(calls, leeway, n).token != ""
    ensures j < n && ReplyTo(calls, leeway, j) == Refreshed(After(calls, leeway, n).token)
    ensures calls[j].fetch.Fetched?
    ensures After(calls, leeway, n).expiresAt <= calls[j].done + Lifetime(calls[j].fetch.expiresIn) * SECOND
    ensures forall i :: j < i < n ==> !ReplyTo(calls, leeway, i).Refreshed?
  {
    if ReplyTo(calls, leeway, n - 1).Refreshed? {
      j := n - 1;
    } else {
      j := CachedTokenOrigin(calls, leeway, n - 1);
    }
  }

  // Every token answered from the cache is the one fetched last, and has more than
  // the leeway left of the lifetime its response declared.
  lemma HitHasLeewayLeft(calls: seq<Call>, leeway: int, i: nat) returns (j: nat)
    requires i < |calls| && ReplyTo(calls, leeway, i).Hit?
    ensures j < i && ReplyTo(calls, leeway, j) == Refreshed(ReplyTo(calls, leeway, i).token)
    ensures calls[j].fetch.Fetched?
    ensures var e := calls[j].fetch.expiresIn;
            calls[j].done + (if e > 0 then e else 300) * 1_000_000_000 - calls[i].now > leeway
    ensures forall m :: j < m < i ==> !ReplyTo(calls, leeway, m).Refreshed?
  {
    j := CachedTokenOrigin(calls, leeway, i);
  }

  // ----- What a refresh is good for -----

  // How long a response's token is cached for: its lifetime as a duration.
  function Span(expiresIn: int): int { Wrap64(Lifetime(expiresIn) * SECOND) }

  predicate LastRefresh(calls: seq<Call>, leeway: int, i: nat, j: nat)
    requires i < j <= |calls|
  {
    && ReplyTo(calls, leeway, i).Refreshed?
    && calls[i].fetch.Fetched?
    && forall m :: i < m < j ==> !ReplyTo(calls, leeway, m).Refreshed?
  }

  // Until the next refresh the cache keeps what call i stored.
  lemma {:induction false} CacheSinceRefresh(calls: seq<Call>, leeway: int, i: nat, j: nat)
    requires i < j <= |calls| && LastRefresh(calls, leeway, i, j)
    ensures After(calls, leeway, j) == Cache(calls[i].fetch.token, calls[i].done + Span(calls[i].fetch.expiresIn))
    ensures After(calls, leeway, j).token != ""
    decreases j
  {
    if j > i + 1 {
      CacheSinceRefresh(calls, leeway, i, j - 1);
      assert !ReplyTo(calls, leeway, j - 1).Refreshed?;
    }
  }

  // What a call that is not answered from the cache gets.
  function Answered(fetch: Fetch): Reply {
    if fetch.Fetched? && fetch.token != "" then Refreshed(fetch.token) else Failure
  }

  // A call after a refresh is answered from the cache exactly while more than the
  // leeway is left of the span the refresh recorded, seconds as a 64-bit duration and
  // five minutes where the response grants none; otherwise it gets what it fetches.
  lemma LaterCallHitsIff(calls: seq<Call>, leeway: int, i: nat, j: nat)
    requires i < j < |calls| && LastRefresh(calls, leeway, i, j)
    ensures var e := calls[i].fetch.expiresIn;
            ReplyTo(calls, leeway, j)
            == if calls[i].done + Wrap64((if e > 0 then e else 300) * 1_000_000_000) - calls[j].now > leeway
               then Hit(calls[i].fetch.token) else Answered(calls[j].fetch)
  {
    CacheSinceRefresh(calls, leeway, i, j);
  }

  // Before any refresh every call gets what it fetches.
  lemma {:induction false} FirstCallsFetch(calls: seq<Call>, leeway: int, j: nat)
    requires j < |calls| && forall m :: 0 <= m < j ==> !ReplyTo(calls, leeway, m).Refreshed?
    ensures After(calls, leeway, j) == EMPTY && ReplyTo(calls, leeway, j) == Answered(calls[j].fetch)
  {
    if j > 0 {
      FirstCallsFetch(calls, leeway, j - 1);
      assert !ReplyTo(calls, leeway, j - 1).Refreshed?;
    }
  }

  // Whether some later moment is answered from the cache that the refresh `first`
  // leaves.
  ghost predicate EverHits(c: Cache, leeway: int, first: Call) {
    exists next: Call :: first.done <= next.now && Get(Get(c, leeway, first).0, leeway, next).1.Hit?
  }

  // A refresh is of no use to any later call exactly when its span, after the
  // wrap-around, is no longer than the leeway.
  lemma RefreshIsUsefulIff(c: Cache, leeway: int, first: Call)
    requires Get(c, leeway, first).1.Refreshed?
    ensures EverHits(c, leeway, first) <==> Span(first.fetch.expiresIn) > leeway
  {
    if Span(first.fetch.expiresIn) > leeway {
      var next := Call(first.done, FetchFails, first.done);
      assert Get(Get(c, leeway, first).0, leeway, next).1.Hit?;
    }
  }

  // ----- Refresh rate -----

  function Refreshes(calls: seq<Call>, leeway: int, i: nat, n: nat): nat
    requires i <= n <= |calls|
  {
    if n == i then 0
    else Refreshes(calls, leeway, i, n - 1) + (if ReplyTo(calls, leeway, n - 1).Refreshed? then 1 else 0)
  }

  predicate ConstantLifetime(calls: seq<Call>, seconds: int) {
    forall i :: 0 <= i < |calls| && calls[i].fetch.Fetched? ==> Lifetime(calls[i].fetch.expiresIn) == seconds
  }

  // A refresh of a cached token happens no earlier than leeway before its recorded
  // expiry, and records the full span.
  lemma RefreshStep(c: Cache, leeway: int, call: Call, span: int)
    requires Get(c, leeway, call).1.Refreshed? && call.now <= call.done
    requires span == Span(call.fetch.expiresIn)
    ensures Get(c, leeway, call).0.token != ""
    ensures Get(c, leeway, call).0.expiresAt == call.done + span
    ensures c.token != "" ==> call.done >= c.expiresAt - leeway
  {
  }

  // From a refreshing call i on, the recorded expiry lies a span after the latest
  // refresh, which lies far enough after the first.
  lemma {:induction false} ExpiryAdvances(calls: seq<Call>, leeway: int, seconds: int, span: int, gap: int, i: nat, n: nat)
    requires Serial(calls) && ConstantLifetime(calls, seconds)
    requires span == Wrap64(seconds * SECOND) && gap == span - leeway
    requires i < n <= |calls| && ReplyTo(calls, leeway, i).Refreshed?
    ensures After(calls, leeway, n).token != "" && Refreshes(calls, leeway, i, n) >= 1
    ensures After(calls, leeway, n).expiresAt - span >= calls[i].done + (Refreshes(calls, leeway, i, n) - 1) * gap
    ensures ReplyTo(calls, leeway, n - 1).Refreshed? ==>
              After(calls, leeway, n).expiresAt == calls[n - 1].done + span
  {
    if n == i + 1 {
      assert Refreshes(calls, leeway, i, i) == 0;
      RefreshStep(After(calls, leeway, i), leeway, calls[i], span);
      assert (1 - 1) * gap == 0;
    } else {
      ExpiryAdvances(calls, leeway, seconds, span, gap, i, n - 1);
      if ReplyTo(calls, leeway, n - 1).Refreshed? {
        RefreshStep(After(calls, leeway, n - 1), leeway, calls[n - 1], span);
        OneMore(Refreshes(calls, leeway, i, n - 1), gap);
      }
    }
  }

  lemma OneMore(k: int, gap: int)
    ensures (k - 1) * gap + gap == k * gap
  {
  }

  // With a constant lifetime of any size, k successful refreshes span at least
  // (k - 1) times the lifetime's duration minus leeway.
  lemma RefreshesAreSpaced(calls: seq<Call>, leeway: int, seconds: int, i: nat, j: nat)
    requires Serial(calls) && ConstantLifetime(calls, seconds)
    requires i <= j < |calls|
    requires ReplyTo(calls, leeway, i).Refreshed? && ReplyTo(calls, leeway, j).Refreshed?
    ensures calls[j].done - calls[i].done
         >= (Refreshes(calls, leeway, i, j + 1) - 1) * (Wrap64(seconds * SECOND) - leeway)
  {
    var span := Wrap64(seconds * SECOND);
    ExpiryAdvances(calls, leeway, seconds, span, span - leeway, i, j + 1);
  }

  // The refreshes from call i to call j span at least the granted lifetime minus
  // leeway between each two.
  predicate Spaced(calls: seq<Call>, leeway: int, seconds: int, i: int, j: int) {
    0 <= i <= j < |calls| && ReplyTo(calls, leeway, i).Refreshed? && ReplyTo(calls, leeway, j).Refreshed? ==>
      calls[j].done - calls[i].done >= (Refreshes(calls, leeway, i, j + 1) - 1) * (seconds * SECOND - leeway)
  }

  ghost predicate AlwaysSpaced(leeway: int, seconds: int) {
    forall calls: seq<Call>, i: int, j: int ::
      Serial(calls) && ConstantLifetime(calls, seconds) ==> Spaced(calls, leeway, seconds, i, j)
  }

  // The granted lifetime itself spaces the refreshes of every sequence exactly when
  // it is in the range of durations.
  lemma AlwaysSpacedIff(leeway: int, seconds: int)
    requires seconds > 0 && seconds * SECOND > leeway
    ensures AlwaysSpaced(leeway, seconds) <==> seconds * SECOND < TWO_63
  {
    if seconds * SECOND < TWO_63 {
      forall calls: seq<Call>, i: int, j: int | Serial(calls) && ConstantLifetime(calls, seconds)
        ensures Spaced(calls, leeway, seconds, i, j)
      {
        if 0 <= i <= j < |calls| && ReplyTo(calls, leeway, i).Refreshed? && ReplyTo(calls, leeway, j).Refreshed? {
          RefreshesAreSpaced(calls, leeway, seconds, i, j);
        }
      }
    } else {
      var calls := EarlyRefresh(leeway, seconds);
      assert !Spaced(calls, leeway, seconds, 0, 1);
    }
  }

  // Beyond that range two calls are enough to refresh too early: the second comes
  // as soon as the wrapped span runs out.
  lemma EarlyRefresh(leeway: int, seconds: int) returns (calls: seq<Call>)
    requires seconds * SECOND > leeway && seconds * SECOND >= TWO_63
    ensures Serial(calls) && ConstantLifetime(calls, seconds)
    ensures |calls| == 2 && !Spaced(calls, leeway, seconds, 0, 1)
  {
    var fetch := Fetched("t", seconds);
    var span := Wrap64(seconds * SECOND);
    var again := if span > leeway then span - leeway else 0;
    calls := [Call(0, fetch, 0), Call(again, fetch, again)];
    assert After(calls, leeway, 1) == Cache("t", span);
    assert ReplyTo(calls, leeway, 1).Refreshed?;
    assert Refreshes(calls, leeway, 0, 1) == 1;
    assert Refreshes(calls, leeway, 0, 2) == 2;
  }
}
