/** Throttles for the generated CRUD viewsets: the scope and rate of each
    throttle class, the cache key a throttle stores its history under, and
    the choice of throttles for a viewset action. */
module Throttles {
  import opened Common

  /** Hexadecimal SHA-256 digest of a string, left uninterpreted. */
  type Digest = string -> string

  ghost predicate LongDigests(sha: Digest) {
    forall s :: |sha(s)| >= 16
  }

  datatype Throttle =
    | CrudRead     // CRUDReadThrottle
    | CrudWrite    // CRUDWriteThrottle
    | CrudCreate   // CRUDCreateThrottle
    | CrudDelete   // CRUDDeleteThrottle
    | CrudAnon     // CRUDAnonThrottle
    | Burst        // BurstRateThrottle
    | Sustained    // SustainedRateThrottle

  /** The `scope` class attribute. */
  function Scope(t: Throttle): string {
    match t
    case CrudRead => "crud_read"
    case CrudWrite => "crud_write"
    case CrudCreate => "crud_create"
    case CrudDelete => "crud_delete"
    case CrudAnon => "crud_anon"
    case Burst => "burst"
    case Sustained => "sustained"
  }

  /** The `rate` class attribute. */
  function RateText(t: Throttle): string {
    match t
    case CrudRead => "100/minute"
    case CrudWrite => "50/minute"
    case CrudCreate => "30/minute"
    case CrudDelete => "20/minute"
    case CrudAnon => "20/hour"
    case Burst => "10/second"
    case Sustained => "1000/day"
  }

  /** No two throttle classes share a scope, so their histories never share
      a cache entry. */
  lemma ScopesDistinct(t1: Throttle, t2: Throttle)
    ensures Scope(t1) == Scope(t2) <==> t1 == t2
  {
  }

  // ---------------------------------------------------------------------------
  // Rates, read the way the throttle base class reads them

  datatype ThrottleRate = ThrottleRate(requests: int, seconds: int)

  /** "N/unit": N requests per the period named by the unit's first letter
      (s, m, h or d); anything else is not a rate. */
  function ParseThrottleRate(rate: string): (r: Option<ThrottleRate>)
    ensures r.Some? ==> r.value.seconds in {1, 60, 3600, 86400}
    ensures r.Some? ==> '/' in rate
  {
    match IndexOfChar(rate, '/')
    case None => None
    case Some(i) =>
      var unit := rate[i + 1..];
      if unit == [] || '/' in unit then None
      else
        var seconds := if unit[0] == 's' then 1 else if unit[0] == 'm' then 60
                       else if unit[0] == 'h' then 3600 else if unit[0] == 'd' then 86400 else 0;
        match ParseInt(rate[..i])
        case None => None
        case Some(n) => if seconds == 0 then None else Some(ThrottleRate(n, seconds))
  }

  /** Writing a count and a spelled-out unit as "N/unit" reads back as N
      requests per that unit's period. */
  lemma ParseThrottleRateRoundTrip(n: nat, unit: string, seconds: int)
    requires unit != [] && '/' !in unit
    requires (unit[0] == 's' && seconds == 1) || (unit[0] == 'm' && seconds == 60)
          || (unit[0] == 'h' && seconds == 3600) || (unit[0] == 'd' && seconds == 86400)
    ensures ParseThrottleRate(NatToString(n) + "/" + unit) == Some(ThrottleRate(n, seconds))
  {
    var digits := NatToString(n);
    var rate := digits + "/" + unit;
    assert '/' !in digits by {
      assert forall i :: 0 <= i < |digits| ==> IsDigitChar(digits[i]);
    }
    assert IndexOfChar(rate, '/') == Some(|digits|) by {
      assert rate[..|digits|] == digits;
    }
    assert rate[..|digits|] == digits && rate[|digits| + 1..] == unit;
    ParseIntNatToString(n);
  }

  /** Requests allowed per second / minute / hour / day by each class. */
  function Allowance(t: Throttle): (r: ThrottleRate) {
    match t
    case CrudRead => ThrottleRate(100, 60)
    case CrudWrite => ThrottleRate(50, 60)
    case CrudCreate => ThrottleRate(30, 60)
    case CrudDelete => ThrottleRate(20, 60)
    case CrudAnon => ThrottleRate(20, 3600)
    case Burst => ThrottleRate(10, 1)
    case Sustained => ThrottleRate(1000, 86400)
  }

  /** Every class's rate string reads as its intended allowance. */
  lemma RatesReadAsAllowance(t: Throttle)
    ensures ParseThrottleRate(RateText(t)) == Some(Allowance(t))
  {
    Numerals();
    match t
    case CrudRead => RateOf("100/minute", 100, "minute", 60);
    case CrudWrite => RateOf("50/minute", 50, "minute", 60);
    case CrudCreate => RateOf("30/minute", 30, "minute", 60);
    case CrudDelete => RateOf("20/minute", 20, "minute", 60);
    case CrudAnon => RateOf("20/hour", 20, "hour", 3600);
    case Burst => RateOf("10/second", 10, "second", 1);
    case Sustained => RateOf("1000/day", 1000, "day", 86400);
  }

  lemma RateOf(rate: string, n: nat, unit: string, seconds: int)
    requires unit != [] && '/' !in unit
    requires (unit[0] == 's' && seconds == 1) || (unit[0] == 'm' && seconds == 60)
          || (unit[0] == 'h' && seconds == 3600) || (unit[0] == 'd' && seconds == 86400)
    requires rate == NatToString(n) + "/" + unit
    ensures ParseThrottleRate(rate) == Some(ThrottleRate(n, seconds))
  {
    ParseThrottleRateRoundTrip(n, unit, seconds);
  }

  lemma Numerals()
    ensures NatToString(10) == "10" && NatToString(20) == "20" && NatToString(30) == "30"
    ensures NatToString(50) == "50" && NatToString(100) == "100" && NatToString(1000) == "1000"
  {
    assert NatToString(1) == "1" && NatToString(2) == "2" && NatToString(3) == "3";
    assert NatToString(5) == "5" && NatToString(0) == "0";
    assert NatToString(10) == NatToString(1) + "0";
    assert NatToString(100) == NatToString(10) + "0";
    assert NatToString(1000) == NatToString(100) + "0";
  }

  // ---------------------------------------------------------------------------
  // Cache key

  /** The parts of a request a throttle looks at. `ident` is what the
      framework's `get_ident` returns for the request. */
  datatype Request = Request(authenticated: bool, userId: nat, ident: string)

  const CachePrefix := "throttle_"

  /** `get_cache_key`: the user id for an authenticated user, otherwise the
      client identity, hashed and cut to 16 characters, filled into the
      framework's "throttle_<scope>_<ident>" format. */
  function CacheKey(sha: Digest, t: Throttle, req: Request): (key: string)
    ensures |key| == |CachePrefix| + |Scope(t)| + 1 + Min(|sha(Identity(req))|, 16)
    ensures key[..|CachePrefix|] == CachePrefix
  {
    CachePrefix + Scope(t) + "_" + Take(sha(Identity(req)), 16)
  }

  /** The identity a throttle counts under. */
  function Identity(req: Request): (id: string)
    ensures req.authenticated ==> id == NatToString(req.userId)
    ensures !req.authenticated ==> id == req.ident
  {
    if req.authenticated then NatToString(req.userId) else req.ident
  }

  /** The scope and the hashed identity can be read back from a key, so two
      throttles' keys differ whenever their classes do. */
  lemma {:induction false} CacheKeyRoundTrip(sha: Digest, t: Throttle, req: Request)
    requires |sha(Identity(req))| >= 16
    ensures var key := CacheKey(sha, t, req);
      && |key| >= |CachePrefix| + 17
      && key[|CachePrefix|..|key| - 17] == Scope(t)
      && key[|key| - 16..] == sha(Identity(req))[..16]
  {
    var key := CacheKey(sha, t, req);
    assert key == CachePrefix + Scope(t) + "_" + sha(Identity(req))[..16];
    assert key[|CachePrefix|..|key| - 17] == Scope(t);
  }

  /** Distinct throttle classes never share a key; the same class shares a
      key exactly when the hashed identities agree. */
  lemma CacheKeysCollideIff(sha: Digest, t1: Throttle, r1: Request, t2: Throttle, r2: Request)
    requires LongDigests(sha)
    ensures CacheKey(sha, t1, r1) == CacheKey(sha, t2, r2)
        <==> t1 == t2 && sha(Identity(r1))[..16] == sha(Identity(r2))[..16]
  {
    assert |sha(Identity(r1))| >= 16 && |sha(Identity(r2))| >= 16;
    CacheKeyRoundTrip(sha, t1, r1);
    CacheKeyRoundTrip(sha, t2, r2);
    ScopesDistinct(t1, t2);
  }

  // ---------------------------------------------------------------------------
  // Throttles per action

  const StandardCrudThrottles := [Burst, CrudRead, CrudWrite, Sustained]
  const StrictCrudThrottles := [Burst, CrudCreate, CrudDelete, Sustained]
  const PublicCrudThrottles := [CrudAnon, Burst, CrudRead]

  /** `get_throttles_for_action`; `None` is a viewset without an action. */
  function ThrottlesForAction(action: Option<string>): (r: seq<Throttle>)
    ensures |r| == 3 && r[0] == Burst && r[2] == Sustained
    ensures action in {Some("list"), Some("retrieve")} <==> r[1] == CrudRead
    ensures action == Some("create") <==> r[1] == CrudCreate
    ensures action == Some("destroy") <==> r[1] == CrudDelete
    ensures action !in {Some("list"), Some("retrieve"), Some("create"), Some("destroy")} <==> r[1] == CrudWrite
  {
    var middle :=
      if action == Some("list") || action == Some("retrieve") then CrudRead
      else if action == Some("create") then CrudCreate
      else if action == Some("destroy") then CrudDelete
      else CrudWrite;
    [Burst, middle, Sustained]
  }

  /** An instantiated throttle: its class's scope and rate. */
  datatype Instance = Instance(scope: string, rate: string)

  function Instantiate(t: Throttle): Instance {
    Instance(Scope(t), RateText(t))
  }

  /** `DynamicThrottleMixin.get_throttles`: one instance per class chosen for
      the action, in the same order. */
  method GetThrottles(action: Option<string>) returns (r: seq<Instance>)
    ensures |r| == 3
    ensures forall i :: 0 <= i < 3 ==> r[i] == Instantiate(ThrottlesForAction(action)[i])
    ensures r[0].scope == "burst" && r[2].scope == "sustained"
  {
    var classes := ThrottlesForAction(action);
    r := [];
    for i := 0 to |classes|
      invariant |r| == i
      invariant forall j :: 0 <= j < i ==> r[j] == Instantiate(classes[j])
    {
      r := r + [Instantiate(classes[i])];
    }
  }

  /** Every action is covered by both the burst and the sustained limits,
      and the per-minute class for a write action allows no more than the
      read class does. */
  lemma ActionLimitsOrdered(action: Option<string>)
    ensures Allowance(ThrottlesForAction(action)[1]).requests <= Allowance(CrudRead).requests
    ensures Allowance(ThrottlesForAction(action)[0]).seconds == 1
    ensures Allowance(ThrottlesForAction(action)[2]).seconds == 86400
  {
  }
}
