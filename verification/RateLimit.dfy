/**
 The token bucket meant for the authentication and sync routes (apps/api/src/common/rate-limit.guard.ts). Its table
 lists their paths without the global prefix that apps/api/src/main.ts:27 puts before every route: see `ServedRunsPass`.
 Tokens are real numbers, the clock is in milliseconds and does not run backwards.
 */
module RateLimit {
  import opened Prelude

  datatype Policy = Policy(capacity: real, refillPerSec: real)

  datatype Key = Key(path: string, ip: string)

  datatype Bucket = Bucket(tokens: real, updated: int)

  datatype Answer = Admitted | TooMany(retryAfter: int)

  datatype Request = Request(path: string, ip: string, now: int)

  function PolicyOf(path: string): (p: Option<Policy>)
    ensures p.Some? ==> p.value.capacity >= 1.0 && p.value.refillPerSec > 0.0
  {
    if path == "/v1/auth/login" then Some(Policy(5.0, 0.1))
    else if path == "/v1/auth/refresh" then Some(Policy(20.0, 1.0))
    else if path == "/v1/sync/push" then Some(Policy(30.0, 2.0))
    else if path == "/v1/sync/pull" then Some(Policy(60.0, 5.0))
    else None
  }

  function StripSlash(path: string): string {
    if path != "" && path[|path| - 1] == '/' then path[..|path| - 1] else path
  }

  function KeyOf(r: Request): Key { Key(StripSlash(r.path), r.ip) }

  function Refill(p: Policy, ms: int): real { ms as real / 1000.0 * p.refillPerSec }

  function MinReal(a: real, b: real): real { if a <= b then a else b }

  function Ceil(x: real): int { -((-x).Floor) }

  type Buckets = map<Key, Bucket>

  function Refilled(bs: Buckets, key: Key, p: Policy, now: int): real {
    if key in bs then MinReal(p.capacity, bs[key].tokens + Refill(p, now - bs[key].updated))
        else MinReal(p.capacity, p.capacity + Refill(p, 0))
  }

  function AnswerTo(bs: Buckets, r: Request): Answer {
    match PolicyOf(StripSlash(r.path))
    case None => Admitted
    case Some(p) =>
      var tokens := Refilled(bs, KeyOf(r), p, r.now);
      if tokens < 1.0 then TooMany(Ceil((1.0 - tokens) / p.refillPerSec)) else Admitted
  }

  function Next(bs: Buckets, r: Request): Buckets {
    match PolicyOf(StripSlash(r.path))
    case None => bs
    case Some(p) =>
      var tokens := Refilled(bs, KeyOf(r), p, r.now);
      bs[KeyOf(r) := Bucket(if tokens < 1.0 then tokens else tokens - 1.0, r.now)]
  }

  class RateLimitGuard {
    var buckets: map<Key, Bucket>

    constructor ()
      ensures buckets == map[]
    {
      buckets := map[];
    }

    method CanActivate(r: Request) returns (a: Answer)
      modifies this
      ensures a == AnswerTo(old(buckets), r) && buckets == Next(old(buckets), r)
    {
      var policy := PolicyOf(StripSlash(r.path));
      if policy.None? { return Admitted; }
      var p, key := policy.value, KeyOf(r);
      var bucket := if key in buckets then buckets[key] else Bucket(p.capacity, r.now);
      var tokens := MinReal(p.capacity, bucket.tokens + Refill(p, r.now - bucket.updated));
      bucket := Bucket(tokens, r.now);
      if bucket.tokens < 1.0 {
        buckets := buckets[key := bucket];
        return TooMany(Ceil((1.0 - bucket.tokens) / p.refillPerSec));
      }
      bucket := bucket.(tokens := bucket.tokens - 1.0);
      buckets := buckets[key := bucket];
      return Admitted;
    }
  }

  // ---- runs ----

  function After(bs: Buckets, rs: seq<Request>): Buckets
    decreases rs
  {
    if rs == [] then bs else After(Next(bs, rs[0]), rs[1..])
  }

  ghost predicate ClockRuns(rs: seq<Request>) { forall i, j :: 0 <= i < j < |rs| ==> rs[i].now <= rs[j].now }

  // ---- which paths it is about ----

  /** The paths the application serves: all of them stand behind the global prefix. */
  predicate Served(path: string) { |path| >= 4 && path[..4] == "/api" }

  lemma {:induction false} ServedIsNotListed(path: string)
    requires Served(path)
    ensures PolicyOf(StripSlash(path)) == None
  {
    assert StripSlash(path)[1] == path[1] == path[..4][1] == 'a';
  }

  /** Over every run of requests to served paths nothing is ever counted or refused. */
  lemma {:induction false} ServedRunsPass(bs: Buckets, rs: seq<Request>, r: Request)
    requires Served(r.path) && forall k :: 0 <= k < |rs| ==> Served(rs[k].path)
    ensures After(bs, rs) == bs && AnswerTo(After(bs, rs), r) == Admitted
    decreases rs
  {
    ServedIsNotListed(r.path);
    if rs != [] {
      ServedIsNotListed(rs[0].path);
      assert forall k :: 0 <= k < |rs[1..]| ==> rs[1..][k] == rs[k + 1];
      ServedRunsPass(bs, rs[1..], r);
    }
  }

  // ---- what it promises for the listed ones ----

  /** Every bucket holds between nothing and its capacity, and was last touched no later than `now`. */
  ghost predicate Sane(bs: Buckets, now: int) {
    forall k :: k in bs ==>
      && PolicyOf(k.path).Some? && 0.0 <= bs[k].tokens <= PolicyOf(k.path).value.capacity
      && bs[k].updated <= now
  }

  lemma {:induction false} RefillAdds(p: Policy, a: int, b: int)
    requires p.refillPerSec > 0.0
    ensures Refill(p, a + b) == Refill(p, a) + Refill(p, b)
    ensures a >= 0 ==> Refill(p, a) >= 0.0
  {
    var x, y, q := a as real / 1000.0, b as real / 1000.0, p.refillPerSec;
    assert (a + b) as real / 1000.0 == x + y;
    assert (x + y) * q == x * q + y * q;
  }

  lemma {:induction false} NextSane(bs: Buckets, r: Request)
    requires Sane(bs, r.now)
    ensures Sane(Next(bs, r), r.now)
  {
    var p := PolicyOf(StripSlash(r.path));
    if p.Some? {
      if KeyOf(r) in bs { RefillAdds(p.value, r.now - bs[KeyOf(r)].updated, 0); }
      RefillAdds(p.value, 0, 0);
    }
  }

  /** In every run: 0 <= tokens <= capacity. */
  lemma {:induction false} TokensStayInRange(bs: Buckets, rs: seq<Request>, start: int, end: int)
    requires Sane(bs, start) && ClockRuns(rs) && (rs != [] ==> start <= rs[0].now && rs[|rs| - 1].now <= end)
    requires start <= end
    ensures Sane(After(bs, rs), end)
    decreases rs
  {
    if rs != [] {
      assert Sane(bs, rs[0].now);
      NextSane(bs, rs[0]);
      assert forall i :: 0 <= i < |rs[1..]| ==> rs[1..][i] == rs[i + 1];
      if |rs| == 1 { assert After(Next(bs, rs[0]), rs[1..]) == Next(bs, rs[0]); }
      TokensStayInRange(Next(bs, rs[0]), rs[1..], rs[0].now, end);
    }
  }

  // ---- the bound ----

  predicate Counts(bs: Buckets, r: Request, key: Key, from: int, until: int) {
    KeyOf(r) == key && from <= r.now <= until && AnswerTo(bs, r) == Admitted
  }

  /** How many requests of a key are admitted in [from, until]. */
  function AdmittedIn(bs: Buckets, rs: seq<Request>, key: Key, from: int, until: int): nat
    decreases rs
  {
    if rs == [] then 0
    else (if Counts(bs, rs[0], key, from, until) then 1 else 0) + AdmittedIn(Next(bs, rs[0]), rs[1..], key, from, until)
  }

  /** What a key with this bucket may still be given inside the interval. */
  function Remaining(b: Option<Bucket>, p: Policy, from: int, until: int): real {
    if b.None? || b.value.updated < from then p.capacity + Refill(p, until - from)
    else if b.value.updated <= until then b.value.tokens + Refill(p, until - b.value.updated)
    else 0.0
  }

  function Budget(bs: Buckets, key: Key, p: Policy, from: int, until: int): real {
    Remaining(Lookup(bs, key), p, from, until)
  }

  /** One request, inside or outside the interval: `tokens` are what it finds after the refill. */
  lemma {:induction false} RemainingStep(b: Option<Bucket>, p: Policy, now: int, tokens: real, from: int, until: int)
    requires p.refillPerSec > 0.0 && from <= until
    requires b.Some? ==> b.value.updated <= now && tokens <= b.value.tokens + Refill(p, now - b.value.updated)
    requires 0.0 <= tokens <= p.capacity && (b.Some? ==> b.value.tokens >= 0.0)
    ensures Remaining(Some(Bucket(tokens, now)), p, from, until) <= Remaining(b, p, from, until)
  {
    RefillAdds(p, until - from, 0);
    if b.Some? {
      if b.value.updated <= until { RefillAdds(p, until - b.value.updated, 0); }
      RefillAdds(p, now - b.value.updated, until - now);
    }
    if from <= now <= until { RefillAdds(p, now - from, until - now); }
  }

  lemma {:induction false} BudgetStep(bs: Buckets, r: Request, key: Key, p: Policy, from: int, until: int)
    requires Sane(bs, r.now) && PolicyOf(key.path) == Some(p) && from <= until
    ensures Budget(Next(bs, r), key, p, from, until)
            + (if Counts(bs, r, key, from, until) then 1.0 else 0.0) <= Budget(bs, key, p, from, until)
  {
    if KeyOf(r) == key {
      var tokens := Refilled(bs, key, p, r.now);
      RefillAdds(p, 0, 0);
      if key in bs { RefillAdds(p, r.now - bs[key].updated, 0); }
      RemainingStep(Lookup(bs, key), p, r.now, tokens, from, until);
    }
  }

  lemma {:induction false} AdmittedWithinBudget(bs: Buckets, rs: seq<Request>, key: Key, p: Policy, from: int,
                                                until: int)
    requires ClockRuns(rs) && (rs != [] ==> Sane(bs, rs[0].now)) && PolicyOf(key.path) == Some(p) && from <= until
    requires Budget(bs, key, p, from, until) >= 0.0
    ensures AdmittedIn(bs, rs, key, from, until) as real <= Budget(bs, key, p, from, until)
    decreases rs
  {
    if rs != [] {
      BudgetStep(bs, rs[0], key, p, from, until);
      NextSane(bs, rs[0]);
      var rest := rs[1..];
      assert forall i :: 0 <= i < |rest| ==> rest[i] == rs[i + 1];
      var next := Next(bs, rs[0]);
      if rest != [] {
        assert Sane(next, rest[0].now);
        BudgetNotNegative(next, key, p, from, until, rest[0].now);
        AdmittedWithinBudget(next, rest, key, p, from, until);
      } else {
        BudgetNotNegative(next, key, p, from, until, rs[0].now);
      }
    }
  }

  lemma {:induction false} BudgetNotNegative(bs: Buckets, key: Key, p: Policy, from: int, until: int, now: int)
    requires Sane(bs, now) && PolicyOf(key.path) == Some(p) && from <= until
    ensures Budget(bs, key, p, from, until) >= 0.0
  {
    RefillAdds(p, until - from, 0);
    if key in bs && from <= bs[key].updated <= until { RefillAdds(p, until - bs[key].updated, 0); }
  }

  /** The token-bucket bound: in every run from an empty guard, with any other traffic in between, a key is admitted
      at most capacity + rate * (until - from) times in [from, until]. */
  lemma {:induction false} AtMostBurstPlusRate(rs: seq<Request>, key: Key, from: int, until: int)
    requires ClockRuns(rs) && PolicyOf(key.path).Some? && from <= until
    ensures var p := PolicyOf(key.path).value;
            AdmittedIn(map[], rs, key, from, until) as real <= p.capacity + Refill(p, until - from)
  {
    var p := PolicyOf(key.path).value;
    RefillAdds(p, until - from, 0);
    AdmittedWithinBudget(map[], rs, key, p, from, until);
  }

  function Copies(r: Request, n: nat): seq<Request> {
    if n == 0 then [] else [r] + Copies(r, n - 1)
  }

  lemma {:induction false} BurstFrom(bs: Buckets, r: Request, n: nat, k: nat)
    requires PolicyOf(KeyOf(r).path).Some? && k as real <= PolicyOf(KeyOf(r).path).value.capacity
    requires KeyOf(r) in bs && bs[KeyOf(r)] == Bucket(k as real, r.now)
    ensures AdmittedIn(bs, Copies(r, n), KeyOf(r), r.now, r.now) == Min(n, k)
    decreases n
  {
    if n > 0 {
      assert Copies(r, n)[1..] == Copies(r, n - 1);
      RefillAdds(PolicyOf(KeyOf(r).path).value, 0, 0);
      BurstFrom(Next(bs, r), r, n - 1, if k > 0 then k - 1 else 0);
    }
  }

  /** The bound is reached: of any number of simultaneous requests on a fresh key, exactly the capacity is admitted. */
  lemma {:induction false} FreshKeyGetsCapacity(r: Request, n: nat, capacity: nat)
    requires PolicyOf(KeyOf(r).path).Some? && PolicyOf(KeyOf(r).path).value.capacity == capacity as real
    ensures AdmittedIn(map[], Copies(r, n), KeyOf(r), r.now, r.now) == Min(n, capacity)
  {
    if n > 0 {
      assert Copies(r, n)[1..] == Copies(r, n - 1);
      RefillAdds(PolicyOf(KeyOf(r).path).value, 0, 0);
      BurstFrom(Next(map[], r), r, n - 1, capacity - 1);
    }
  }

  /** Requests of other keys leave a bucket alone. */
  lemma {:induction false} OtherKeysDoNotMatter(bs: Buckets, rs: seq<Request>, key: Key)
    requires forall i :: 0 <= i < |rs| ==> KeyOf(rs[i]) != key
    ensures key in After(bs, rs) <==> key in bs
    ensures key in bs ==> After(bs, rs)[key] == bs[key]
    decreases rs
  {
    if rs != [] { OtherKeysDoNotMatter(Next(bs, rs[0]), rs[1..], key); }
  }

  // ---- retry-after ----

  lemma {:induction false} CeilBounds(x: real)
    ensures (Ceil(x) - 1) as real < x <= Ceil(x) as real
  {}

  /** `n` seconds pay for the missing part of a token exactly when `n` is at least the advertised number. */
  lemma {:induction false} EnoughSeconds(missing: real, p: Policy, n: int)
    requires p.refillPerSec > 0.0
    ensures Refill(p, 1000 * n) == n as real * p.refillPerSec
    ensures Refill(p, 1000 * n) >= missing <==> n >= Ceil(missing / p.refillPerSec)
  {
    var q, y := p.refillPerSec, missing / p.refillPerSec;
    CeilBounds(y);
    assert (1000 * n) as real / 1000.0 == n as real;
    assert y * q == missing;
    if n >= Ceil(y) { assert n as real >= y; Scale(y, n as real, q); }
    if n < Ceil(y) { assert n as real <= (Ceil(y) - 1) as real < y; ScaleStrict(n as real, y, q); }
  }

  lemma {:induction false} Scale(a: real, b: real, q: real)
    requires a <= b && q > 0.0
    ensures a * q <= b * q
  {}

  lemma {:induction false} ScaleStrict(a: real, b: real, q: real)
    requires a < b && q > 0.0
    ensures a * q < b * q
  {}

  /** A refused caller who comes back `n` whole seconds later, with nothing else on the key in between, is admitted
      exactly when `n` is at least the advertised retry-after. */
  lemma {:induction false} RetryAfterIsExact(bs: Buckets, r: Request, between: seq<Request>, n: nat)
    requires Sane(bs, r.now) && AnswerTo(bs, r).TooMany?
    requires forall i :: 0 <= i < |between| ==> KeyOf(between[i]) != KeyOf(r)
    ensures AnswerTo(After(Next(bs, r), between), r.(now := r.now + 1000 * n)) == Admitted <==>
            n >= AnswerTo(bs, r).retryAfter
  {
    var p := PolicyOf(StripSlash(r.path)).value;
    var tokens := Refilled(bs, KeyOf(r), p, r.now);
    OtherKeysDoNotMatter(Next(bs, r), between, KeyOf(r));
    assert After(Next(bs, r), between)[KeyOf(r)] == Bucket(tokens, r.now);
    EnoughSeconds(1.0 - tokens, p, n);
  }
}
