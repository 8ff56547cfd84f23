/** Fixed-window rate limiting for the authentication endpoints: cache keys,
    the client address, rate strings, the per-key counter kept in the shared
    cache, and the decision taken around a view by the `ratelimit` decorator
    and by `RateLimitMixin.dispatch`.

    Calls are modelled one after another; the read-then-write on the cache is
    not atomic in the source and nothing here claims it is. */
module RateLimit {
  import opened Common

  /** Hexadecimal SHA-256 digest of a string, left uninterpreted. */
  type Digest = string -> string

  /** A real hex digest has 64 characters, so 16 of them can always be taken. */
  ghost predicate LongDigests(sha: Digest) {
    forall s :: |sha(s)| >= 16
  }

  const KeyPrefix := "ratelimit:"

  // ---------------------------------------------------------------------------
  // Keys and client address

  /** `get_rate_limit_key`: the action in clear, the identifier only through
      the first 16 hex characters of its digest. */
  function RateLimitKey(sha: Digest, identifier: string, action: string): (key: string)
    ensures |key| == |KeyPrefix| + |action| + 1 + Min(|sha(identifier)|, 16)
    ensures key[..|KeyPrefix|] == KeyPrefix
    ensures key[|key| - Min(|sha(identifier)|, 16)..] == Take(sha(identifier), 16)
  {
    KeyPrefix + action + ":" + Take(sha(identifier), 16)
  }

  /** The action named by a key of the shape `RateLimitKey` builds. */
  function KeyAction(key: string): string
    requires |key| >= |KeyPrefix| + 17
  {
    key[|KeyPrefix|..|key| - 17]
  }

  /** The hashed identifier carried by a key. */
  function KeyHash(key: string): string
    requires |key| >= 16
  {
    key[|key| - 16..]
  }

  /** Both the action and the hashed identifier can be read back from a key. */
  lemma KeyRoundTrip(sha: Digest, identifier: string, action: string)
    requires |sha(identifier)| >= 16
    ensures var key := RateLimitKey(sha, identifier, action);
      |key| >= |KeyPrefix| + 17
      && KeyAction(key) == action
      && KeyHash(key) == sha(identifier)[..16]
  {
    var key := RateLimitKey(sha, identifier, action);
    assert key == KeyPrefix + action + ":" + sha(identifier)[..16];
    assert key[|KeyPrefix|..|key| - 17] == action;
  }

  /** Two keys coincide exactly when the actions are equal and the two
      identifiers' digests agree on their first 16 characters; the raw
      identifier plays no other part. */
  lemma KeysCollideIff(sha: Digest, id1: string, a1: string, id2: string, a2: string)
    requires LongDigests(sha)
    ensures RateLimitKey(sha, id1, a1) == RateLimitKey(sha, id2, a2)
        <==> a1 == a2 && sha(id1)[..16] == sha(id2)[..16]
  {
    assert |sha(id1)| >= 16 && |sha(id2)| >= 16;
    KeyRoundTrip(sha, id1, a1);
    KeyRoundTrip(sha, id2, a2);
  }

  /** The parts of an incoming request the limiter looks at. */
  datatype Request = Request(
    httpMethod: string,             // request.method, as sent (upper case)
    forwardedFor: Option<string>, // META['HTTP_X_FORWARDED_FOR']
    remoteAddr: Option<string>,   // META['REMOTE_ADDR']
    authenticated: bool,          // request.user.is_authenticated
    userId: nat,                  // request.user.id
    email: Option<string>)        // request.data.get('email')

  /** `get_client_ip`: the first comma-separated entry of X-Forwarded-For,
      stripped, when that header is non-empty; otherwise REMOTE_ADDR or "". */
  function ClientIp(req: Request): (ip: string)
    ensures Truthy(req.forwardedFor) ==>
      ip == Strip(BeforeFirst(req.forwardedFor.value, ','))
      && ',' !in ip && Contains(req.forwardedFor.value, ip)
    ensures !Truthy(req.forwardedFor) ==>
      ip == (if req.remoteAddr.Some? then req.remoteAddr.value else "")
  {
    if Truthy(req.forwardedFor) then
      var first := BeforeFirst(req.forwardedFor.value, ',');
      var ip := Strip(first);
      StripContained(first);
      ContainsPrefix(req.forwardedFor.value, |first|, ip);
      StripNoComma(first);
      ip
    else match req.remoteAddr
      case Some(addr) => addr
      case None => ""
  }

  lemma StripNoComma(s: string)
    requires ',' !in s
    ensures ',' !in Strip(s)
  {
    var r := Strip(s);
    StripIsStripped(s);
    var k :| StrippedAt(s, r, k);
    forall i | 0 <= i < |r| ensures r[i] != ',' {
      assert r[i] == s[k + i];
    }
  }

  // ---------------------------------------------------------------------------
  // Rate strings

  datatype Rate = Rate(limit: int, period: int)

  datatype RateError =
    | MalformedRate  // `rate.split('/')` does not give exactly two parts
    | BadLimit       // `int(limit)` rejects the count

  /** Seconds per unit; the unit is looked up lower-cased and anything
      unknown counts as a minute. */
  function PeriodSeconds(unit: string): (p: int)
    ensures p == 1 || p == 60 || p == 3600 || p == 86400
    ensures p == 1 <==> Lower(unit) == "s"
    ensures p == 3600 <==> Lower(unit) == "h"
    ensures p == 86400 <==> Lower(unit) == "d"
  {
    var u := Lower(unit);
    if u == "s" then 1
    else if u == "m" then 60
    else if u == "h" then 3600
    else if u == "d" then 86400
    else 60
  }

  /** Upper- or lower-case units name the same period. */
  lemma PeriodCaseInsensitive(unit: string)
    ensures PeriodSeconds(Upper(unit)) == PeriodSeconds(unit)
    ensures PeriodSeconds(Lower(unit)) == PeriodSeconds(unit)
  {
    assert Lower(Upper(unit)) == Lower(unit);
    LowerIdempotent(unit);
  }

  /** The rate parsing done at the top of the decorator and of the mixin. */
  function ParseRate(rate: string): (r: Result<Rate, RateError>)
    ensures CountChar(rate, '/') != 1 ==> r == Err(MalformedRate)
    ensures r.Ok? ==> (r.value.period == 1 || r.value.period == 60
                       || r.value.period == 3600 || r.value.period == 86400)
  {
    match IndexOfChar(rate, '/')
    case None => Err(MalformedRate)
    case Some(i) =>
      assert rate == rate[..i] + [rate[i]] + rate[i + 1..];
      CountCharConcat(rate[..i] + [rate[i]], rate[i + 1..], '/');
      CountCharConcat(rate[..i], [rate[i]], '/');
      if '/' in rate[i + 1..] then Err(MalformedRate)
      else match ParseInt(rate[..i])
        case None => Err(BadLimit)
        case Some(n) => Ok(Rate(n, PeriodSeconds(rate[i + 1..])))
  }

  /** Writing a count and a unit as "N/unit" and parsing it gives the count
      back with the unit's period. */
  lemma ParseRateRoundTrip(n: nat, unit: string)
    requires '/' !in unit
    ensures ParseRate(NatToString(n) + "/" + unit) == Ok(Rate(n, PeriodSeconds(unit)))
  {
    var digits := NatToString(n);
    var rate := digits + "/" + unit;
    assert '/' !in digits by {
      assert forall i :: 0 <= i < |digits| ==> IsDigitChar(digits[i]);
    }
    assert IndexOfChar(rate, '/') == Some(|digits|) by {
      assert rate[..|digits|] == digits;
    }
    assert rate[..|digits|] == digits && rate[|digits| + 1..] == unit;
    ParseIntNatToString(n);
  }

  // ---------------------------------------------------------------------------
  // The counter

  /** A cache entry: the stored count and the instant its window closes. */
  datatype Entry = Entry(count: int, expiresAt: int)

  type Cache = map<string, Entry>

  predicate Live(c: Cache, key: string, now: int) {
    key in c && now < c[key].expiresAt
  }

  /** `cache.get(key, 0)`: an expired entry reads as absent. */
  function Count(c: Cache, key: string, now: int): int {
    if Live(c, key, now) then c[key].count else 0
  }

  /** `cache.ttl(key)`: seconds left in the window, 0 for a missing key. */
  function Ttl(c: Cache, key: string, now: int): int {
    if Live(c, key, now) then c[key].expiresAt - now else 0
  }

  /** The stored count of `key` lies within 0..limit. */
  predicate StoredWithin(c: Cache, key: string, limit: int) {
    key in c ==> 0 <= c[key].count <= limit
  }

  datatype Check = Check(limited: bool, retryAfter: Option<int>, cache: Cache)

  /** `is_rate_limited` on an explicit cache value. */
  function CheckCounter(c: Cache, key: string, limit: int, period: int, increment: bool, now: int): (d: Check)
    // rejected exactly when the count has reached the limit, and then nothing is written
    ensures d.limited <==> Count(c, key, now) >= limit
    ensures d.limited ==> d.cache == c
    // the retry hint is what is left of the window, or the whole period for a missing key
    ensures d.limited && Live(c, key, now) ==> d.retryAfter == Some(c[key].expiresAt - now)
    ensures d.limited && !Live(c, key, now) ==> d.retryAfter == Some(period)
    ensures !d.limited ==> d.retryAfter == None
    // an admitted call writes only when asked to
    ensures !d.limited && !increment ==> d.cache == c
    // the first admitted call opens a window of `period` seconds
    ensures !d.limited && increment && Count(c, key, now) == 0 ==>
      d.cache == c[key := Entry(1, now + period)]
    // later calls add one and keep the window
    ensures !d.limited && increment && Count(c, key, now) != 0 ==>
      key in c && d.cache == c[key := Entry(c[key].count + 1, c[key].expiresAt)]
    // no other key is touched, and the stored count never passes the limit
    ensures d.cache - {key} == c - {key}
    ensures StoredWithin(c, key, limit) ==> StoredWithin(d.cache, key, limit)
  {
    var current := Count(c, key, now);
    if current >= limit then
      var ttl := Ttl(c, key, now);
      Check(true, Some(if ttl != 0 then Max(ttl, 1) else period), c)
    else if !increment then Check(false, None, c)
    else if current == 0 then Check(false, None, c[key := Entry(1, now + period)])
    else Check(false, None, c[key := Entry(c[key].count + 1, c[key].expiresAt)])
  }

  /** The admitted/limited answers and the final cache after successive
      incrementing calls on one key at the given instants. */
  function Replay(c: Cache, key: string, limit: int, period: int, times: seq<int>): (r: (seq<bool>, Cache))
    ensures |r.0| == |times|
    decreases |times|
  {
    if times == [] then ([], c)
    else
      var d := CheckCounter(c, key, limit, period, true, times[0]);
      var rest := Replay(d.cache, key, limit, period, times[1..]);
      ([d.limited] + rest.0, rest.1)
  }

  /** Inside an open window holding `k` admitted calls, call `i` is limited
      exactly when `k + i` has reached the limit; the count stops at the
      limit and the window does not move. */
  lemma {:induction false} ReplayInWindow(c: Cache, key: string, limit: int, period: int, times: seq<int>, k: int)
    requires key in c && c[key].count == k && 1 <= k <= limit
    requires forall i :: 0 <= i < |times| ==> times[i] < c[key].expiresAt
    ensures var r := Replay(c, key, limit, period, times);
      && (forall i :: 0 <= i < |times| ==> r.0[i] == (k + i >= limit))
      && key in r.1 && r.1[key] == Entry(Min(k + |times|, limit), c[key].expiresAt)
    decreases |times|
  {
    if times != [] {
      var d := CheckCounter(c, key, limit, period, true, times[0]);
      assert Count(c, key, times[0]) == k;
      var k' := if k < limit then k + 1 else k;
      assert d.cache[key] == Entry(k', c[key].expiresAt);
      ReplayInWindow(d.cache, key, limit, period, times[1..], k');
      var r := Replay(c, key, limit, period, times);
      var rest := Replay(d.cache, key, limit, period, times[1..]);
      forall i | 0 <= i < |times|
        ensures r.0[i] == (k + i >= limit)
      {
        if i > 0 {
          assert r.0[i] == rest.0[i - 1];
          assert rest.0[i - 1] == (k' + (i - 1) >= limit);
        }
      }
    }
  }

  /** From a key that is absent or expired, calls made within one period of
      the first are admitted exactly `limit` times: call `i` (from 0) is
      limited iff `i >= limit`, and the stored count ends at min(calls, limit). */
  lemma {:induction false} FreshWindowAdmitsLimit(c: Cache, key: string, limit: int, period: int, times: seq<int>)
    requires limit >= 1 && period > 0
    requires |times| > 0 && !Live(c, key, times[0])
    requires forall i :: 0 <= i < |times| ==> times[0] <= times[i] < times[0] + period
    ensures var r := Replay(c, key, limit, period, times);
      && (forall i :: 0 <= i < |times| ==> r.0[i] == (i >= limit))
      && key in r.1 && r.1[key].count == Min(|times|, limit)
  {
    var d := CheckCounter(c, key, limit, period, true, times[0]);
    assert !d.limited && d.cache[key] == Entry(1, times[0] + period);
    ReplayInWindow(d.cache, key, limit, period, times[1..], 1);
    var r := Replay(c, key, limit, period, times);
    var rest := Replay(d.cache, key, limit, period, times[1..]);
    forall i | 0 <= i < |times|
      ensures r.0[i] == (i >= limit)
    {
      if i > 0 {
        assert r.0[i] == rest.0[i - 1];
      }
    }
  }

  /** With a limit of zero or less every call is limited and nothing is written. */
  lemma {:induction false} NonPositiveLimitRejectsAll(c: Cache, key: string, limit: int, period: int, times: seq<int>)
    requires limit <= 0 && StoredWithin(c, key, 0)
    ensures var r := Replay(c, key, limit, period, times);
      (forall i :: 0 <= i < |times| ==> r.0[i]) && r.1 == c
    decreases |times|
  {
    if times != [] {
      NonPositiveLimitRejectsAll(c, key, limit, period, times[1..]);
    }
  }

  /** Under any sequence of calls the stored count stays within 0..limit. */
  lemma {:induction false} ReplayStaysWithin(c: Cache, key: string, limit: int, period: int, times: seq<int>)
    requires StoredWithin(c, key, limit)
    ensures StoredWithin(Replay(c, key, limit, period, times).1, key, limit)
    decreases |times|
  {
    if times != [] {
      var d := CheckCounter(c, key, limit, period, true, times[0]);
      ReplayStaysWithin(d.cache, key, limit, period, times[1..]);
    }
  }

  /** The shared cache, with `is_rate_limited` as a method on it. */
  class RateLimiter {
    var cache: Cache

    constructor ()
      ensures cache == map[]
    {
      cache := map[];
    }

    /** `is_rate_limited`: read the count, reject without writing when it has
        reached the limit, otherwise open the window or add one. */
    method IsRateLimited(sha: Digest, identifier: string, action: string, limit: int, period: int,
                         increment: bool, now: int)
      returns (limited: bool, retryAfter: Option<int>)
      modifies this
      ensures var d := CheckCounter(old(cache), RateLimitKey(sha, identifier, action), limit, period, increment, now);
        limited == d.limited && retryAfter == d.retryAfter && cache == d.cache
    {
      var key := RateLimitKey(sha, identifier, action);
      var current := Count(cache, key, now);
      if current >= limit {
        var ttl := Ttl(cache, key, now);
        return true, Some(if ttl != 0 then Max(ttl, 1) else period);
      }
      if increment {
        if current == 0 {
          cache := cache[key := Entry(1, now + period)];
        } else {
          cache := cache[key := Entry(cache[key].count + 1, cache[key].expiresAt)];
        }
      }
      return false, None;
    }

    /** The decorator's `wrapped_view` (`callableKeys` true) and the mixin's
        `dispatch` (`callableKeys` false) around a handler named `handler`. */
    method Dispatch(sha: Digest, s: Settings, req: Request, handler: string, callableKeys: bool, now: int)
      returns (v: Verdict)
      modifies this
      ensures var g := Guard(old(cache), sha, s, req, handler, callableKeys, now);
        v == g.verdict && cache == g.cache
    {
      var parsed := ParseRate(s.rate);
      if parsed.Err? {
        return RateFailure(parsed.error);
      }
      var limit, period := parsed.value.limit, parsed.value.period;
      if !MethodLimited(s.httpMethod, req.httpMethod) {
        return Bypass;
      }
      var identifier := ChooseIdentifier(s.key, req, callableKeys);
      var action := ActionName(handler, req);
      var limited, retryAfter := IsRateLimited(sha, identifier, action, limit, period, true, now);
      if limited && s.block {
        return Blocked(retryAfter);
      }
      return Proceed(limited);
    }
  }

  // ---------------------------------------------------------------------------
  // Decorator and mixin

  /** What to identify the caller by: one of the names 'ip', 'user', 'email'
      (any other name means the client address), or a callable. */
  datatype KeySource = KeyName(name: string) | KeyCallable(f: Request -> string)

  datatype Settings = Settings(key: KeySource, rate: string, httpMethod: string, block: bool)

  /** `ratelimit()` with no arguments. */
  const DecoratorDefaults := Settings(KeyName("ip"), "5/m", "ALL", true)

  /** The class attributes of `RateLimitMixin`. */
  const MixinDefaults := Settings(KeyName("ip"), "10/m", "ALL", true)

  datatype Verdict =
    | RateFailure(error: RateError)   // the rate string raises before anything else
    | Bypass                          // method not limited: handler runs, counter untouched
    | Blocked(retryAfter: Option<int>) // 429 with the retry hint, handler not run
    | Proceed(rateLimited: bool)      // handler runs with `request.rate_limited` set

  /** The method filter: 'ALL' limits everything, otherwise the request
      method must equal the configured one upper-cased. */
  predicate MethodLimited(configured: string, requestMethod: string) {
    configured == "ALL" || requestMethod == Upper(configured)
  }

  /** Identifier choice with its fall-backs to the client address. */
  function ChooseIdentifier(key: KeySource, req: Request, callableKeys: bool): (id: string)
    ensures key == KeyName("ip") ==> id == ClientIp(req)
    ensures key == KeyName("user") ==>
      id == (if req.authenticated then NatToString(req.userId) else ClientIp(req))
    ensures key == KeyName("email") ==>
      id == (if Truthy(req.email) then req.email.value else ClientIp(req))
    ensures key.KeyName? && key.name != "ip" && key.name != "user" && key.name != "email" ==>
      id == ClientIp(req)
    ensures key.KeyCallable? ==> id == (if callableKeys then key.f(req) else ClientIp(req))
  {
    match key
    case KeyName(name) =>
      if name == "ip" then ClientIp(req)
      else if name == "user" then (if req.authenticated then NatToString(req.userId) else ClientIp(req))
      else if name == "email" then (if Truthy(req.email) then req.email.value else ClientIp(req))
      else ClientIp(req)
    case KeyCallable(f) => if callableKeys then f(req) else ClientIp(req)
  }

  /** The counter's action: handler (or class) name, a colon, the method. */
  function ActionName(handler: string, req: Request): string {
    handler + ":" + req.httpMethod
  }

  datatype GuardOutcome = GuardOutcome(verdict: Verdict, cache: Cache)

  /** The whole decision around a view, on an explicit cache value. */
  function Guard(c: Cache, sha: Digest, s: Settings, req: Request, handler: string,
                 callableKeys: bool, now: int): (g: GuardOutcome)
    // the rate string is parsed first, so a bad one fails even for other methods
    ensures g.verdict.RateFailure? <==> ParseRate(s.rate).Err?
    ensures g.verdict.RateFailure? || g.verdict.Bypass? ==> g.cache == c
    // a method that is not limited never reaches the counter
    ensures ParseRate(s.rate).Ok? && !MethodLimited(s.httpMethod, req.httpMethod) ==> g.verdict == Bypass
    // otherwise the counter for this identifier and action is consulted once
    ensures ParseRate(s.rate).Ok? && MethodLimited(s.httpMethod, req.httpMethod) ==>
      var d := CheckCounter(c, RateLimitKey(sha, ChooseIdentifier(s.key, req, callableKeys), ActionName(handler, req)),
                            ParseRate(s.rate).value.limit, ParseRate(s.rate).value.period, true, now);
      && g.cache == d.cache
      && (d.limited && s.block ==> g.verdict == Blocked(d.retryAfter) && d.retryAfter.Some?)
      && (!(d.limited && s.block) ==> g.verdict == Proceed(d.limited))
  {
    match ParseRate(s.rate)
    case Err(e) => GuardOutcome(RateFailure(e), c)
    case Ok(rate) =>
      if !MethodLimited(s.httpMethod, req.httpMethod) then GuardOutcome(Bypass, c)
      else
        var key := RateLimitKey(sha, ChooseIdentifier(s.key, req, callableKeys), ActionName(handler, req));
        var d := CheckCounter(c, key, rate.limit, rate.period, true, now);
        if d.limited && s.block then GuardOutcome(Blocked(d.retryAfter), d.cache)
        else GuardOutcome(Proceed(d.limited), d.cache)
  }

  /** A handler only ever runs flagged as limited when blocking is off. */
  lemma FlaggedOnlyWithoutBlock(c: Cache, sha: Digest, s: Settings, req: Request, handler: string,
                                callableKeys: bool, now: int)
    ensures Guard(c, sha, s, req, handler, callableKeys, now).verdict == Proceed(true) ==> !s.block
  {
  }

  // ---------------------------------------------------------------------------
  // RateLimitConfig

  const Login := Settings(KeyName("ip"), "5/m", "POST", true)
  const Register := Settings(KeyName("ip"), "3/h", "POST", true)
  const ForgotPassword := Settings(KeyName("email"), "3/h", "POST", true)
  const ResetPassword := Settings(KeyName("ip"), "5/h", "POST", true)
  const VerifyEmail := Settings(KeyName("ip"), "10/h", "POST", true)
  const ResendVerification := Settings(KeyName("user"), "3/h", "POST", true)
  const ApiRead := Settings(KeyName("user"), "100/m", "GET", true)
  const ApiWrite := Settings(KeyName("user"), "50/m", "POST", true)

  /** The preset rate strings read as the intended limits and windows: the
      authentication presets per minute or per hour, the API presets 100
      reads and 50 writes a minute. */
  lemma PresetRates()
    ensures ParseRate(Login.rate) == Ok(Rate(5, 60))
    ensures ParseRate(Register.rate) == Ok(Rate(3, 3600))
    ensures ParseRate(ForgotPassword.rate) == Ok(Rate(3, 3600))
    ensures ParseRate(ResetPassword.rate) == Ok(Rate(5, 3600))
    ensures ParseRate(VerifyEmail.rate) == Ok(Rate(10, 3600))
    ensures ParseRate(ResendVerification.rate) == Ok(Rate(3, 3600))
    ensures ParseRate(ApiRead.rate) == Ok(Rate(100, 60))
    ensures ParseRate(ApiWrite.rate) == Ok(Rate(50, 60))
  {
    LoginRate();
    RegisterRate();
    ForgotPasswordRate();
    ResetPasswordRate();
    VerifyEmailRate();
    ResendVerificationRate();
    ApiReadRate();
    ApiWriteRate();
  }

  lemma LoginRate()
    ensures ParseRate(Login.rate) == Ok(Rate(5, 60))
  {
    Numerals();
    Units();
    PresetRate(Login.rate, 5, "m", 60);
  }

  lemma RegisterRate()
    ensures ParseRate(Register.rate) == Ok(Rate(3, 3600))
  {
    Numerals();
    Units();
    PresetRate(Register.rate, 3, "h", 3600);
  }

  lemma ForgotPasswordRate()
    ensures ParseRate(ForgotPassword.rate) == Ok(Rate(3, 3600))
  {
    Numerals();
    Units();
    PresetRate(ForgotPassword.rate, 3, "h", 3600);
  }

  lemma ResetPasswordRate()
    ensures ParseRate(ResetPassword.rate) == Ok(Rate(5, 3600))
  {
    Numerals();
    Units();
    PresetRate(ResetPassword.rate, 5, "h", 3600);
  }

  lemma VerifyEmailRate()
    ensures ParseRate(VerifyEmail.rate) == Ok(Rate(10, 3600))
  {
    Numerals();
    Units();
    PresetRate(VerifyEmail.rate, 10, "h", 3600);
  }

  lemma ResendVerificationRate()
    ensures ParseRate(ResendVerification.rate) == Ok(Rate(3, 3600))
  {
    Numerals();
    Units();
    PresetRate(ResendVerification.rate, 3, "h", 3600);
  }

  lemma ApiReadRate()
    ensures ParseRate(ApiRead.rate) == Ok(Rate(100, 60))
  {
    Numerals();
    Units();
    PresetRate(ApiRead.rate, 100, "m", 60);
  }

  lemma ApiWriteRate()
    ensures ParseRate(ApiWrite.rate) == Ok(Rate(50, 60))
  {
    Numerals();
    Units();
    PresetRate(ApiWrite.rate, 50, "m", 60);
  }

  lemma Units()
    ensures PeriodSeconds("m") == 60 && PeriodSeconds("h") == 3600
  {
  }

  lemma Numerals()
    ensures NatToString(3) == "3" && NatToString(5) == "5"
    ensures NatToString(10) == "10" && NatToString(50) == "50" && NatToString(100) == "100"
  {
    assert NatToString(1) == "1" && NatToString(0) == "0";
    assert NatToString(10) == NatToString(1) + "0";
    assert NatToString(100) == NatToString(10) + "0";
  }

  lemma PresetRate(rate: string, n: nat, unit: string, period: int)
    requires '/' !in unit && PeriodSeconds(unit) == period
    requires rate == NatToString(n) + "/" + unit
    ensures ParseRate(rate) == Ok(Rate(n, period))
  {
    ParseRateRoundTrip(n, unit);
  }
}
