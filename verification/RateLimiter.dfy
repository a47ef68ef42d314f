/**
 * The fixed-window limiter per tenant and endpoint (rate_limiter_tenant.go, rate_limit_tenant_middleware.go) over a
 * cache with expiring keys (redis_cache.go). Times are in milliseconds. The calls of one request come one after the
 * other while the clock runs on; those of different requests interleave only in the last section.
 */
module RateLimiter {
  import opened Wrappers

  const LIMIT: int := 50
  const WINDOW: nat := 60000
  const KEY_PREFIX: string := "rate_limit_api_tenant_"

  /** A key without expiry lives for ever. */
  datatype Entry = Entry(count: int, expiry: Option<int>)

  type Entries = map<string, Entry>

  predicate Alive(e: Entry, now: int) {
    e.expiry.None? || now < e.expiry.value
  }

  predicate Has(entries: Entries, key: string, now: int) {
    key in entries && Alive(entries[key], now)
  }

  /** The cache reports times in whole seconds, to the nearest. */
  function Rounded(ms: int): int {
    (ms + 500) / 1000 * 1000
  }

  function TimeLeft(entries: Entries, key: string, now: int): int {
    if !Has(entries, key, now) || entries[key].expiry.None? then 0 else Rounded(entries[key].expiry.value - now)
  }

  // ---------- The cache ----------

  /** INCRBY: a missing key starts at 0 and has no expiry; an existing one keeps its expiry. */
  function Incremented(entries: Entries, key: string, now: int): Entries {
    entries[key := if Has(entries, key, now) then Entry(entries[key].count + 1, entries[key].expiry)
                   else Entry(1, None)]
  }

  class Cache {
    var entries: Entries

    constructor ()
      ensures entries == map[]
    {
      entries := map[];
    }

    method Get(key: string, now: int) returns (count: Option<int>)
      ensures count == if Has(entries, key, now) then Some(entries[key].count) else None
    {
      if key in entries && Alive(entries[key], now) {
        return Some(entries[key].count);
      }
      return None;
    }

    /** The time a key has left, rounded to seconds; 0 if it has no expiry or is missing. */
    method TTL(key: string, now: int) returns (ttl: int)
      ensures ttl == TimeLeft(entries, key, now)
    {
      if key !in entries || !Alive(entries[key], now) || entries[key].expiry.None? {
        return 0;
      }
      return Rounded(entries[key].expiry.value - now);
    }

    method Exists(key: string, now: int) returns (r: bool)
      ensures r == Has(entries, key, now)
    {
      return key in entries && Alive(entries[key], now);
    }

    method Increment(key: string, now: int) returns (count: int)
      modifies this
      ensures entries == Incremented(old(entries), key, now) && count == entries[key].count
    {
      count := 1;
      var expiry: Option<int> := None;
      if key in entries && Alive(entries[key], now) {
        count, expiry := entries[key].count + 1, entries[key].expiry;
      }
      entries := entries[key := Entry(count, expiry)];
    }

    method Set(key: string, value: int, now: int, ttl: nat)
      modifies this
      ensures entries == old(entries)[key := Entry(value, Some(now + ttl))]
    {
      entries := entries[key := Entry(value, Some(now + ttl))];
    }
  }

  // ---------- One request ----------

  /** The cache call that fails, if one does; Unanswered calls are applied although they come back as an error. */
  datatype Fault =
    | NoFault | GetFails | TTLFails | ExistsFails
    | IncrementFails | IncrementUnanswered | SetFails | SetUnanswered

  /** When the calls of a request reach the cache. */
  datatype Clock = Clock(get: int, ttl: int, look: int, increment: int, put: int)

  predicate Forward(t: Clock) {
    t.get <= t.ttl <= t.look <= t.increment <= t.put
  }

  /** retryAfter is in whole seconds. */
  datatype Info = Info(remaining: int, reset: int, retryAfter: int)

  /** What a request is told whose count could be read. */
  function InfoOf(entries: Entries, key: string, t: Clock, fault: Fault): Info {
    if !Has(entries, key, t.get) then Info(LIMIT, t.ttl + WINDOW, 0)
    else
      var count := entries[key].count;
      var ttl := if fault.TTLFails? then WINDOW else TimeLeft(entries, key, t.ttl);
      Info(if LIMIT - count < 0 then 0 else LIMIT - count, t.ttl + ttl, if count < LIMIT then 0 else ttl / 1000)
  }

  /** The limiter lets a request pass when it cannot check it. */
  predicate Allows(entries: Entries, key: string, now: int, fault: Fault) {
    fault.GetFails? || !Has(entries, key, now) || entries[key].count < LIMIT
  }

  /** The limiter's increment goes on to set the expiry of the key. */
  predicate Sets(entries: Entries, key: string, t: Clock, fault: Fault) {
    !Has(entries, key, t.look) && !fault.IncrementUnanswered? && !fault.SetFails?
  }

  /** The cache after the limiter's increment, which starts a window for a key that has none. */
  function Counted(entries: Entries, key: string, t: Clock, fault: Fault): Entries {
    if fault.ExistsFails? || fault.IncrementFails? then entries
    else
      var after := Incremented(entries, key, t.increment);
      if Sets(entries, key, t, fault) then after[key := Entry(after[key].count, Some(t.put + WINDOW))] else after
  }

  /** The cache after the request. */
  function After(entries: Entries, key: string, t: Clock, fault: Fault): Entries {
    if fault.GetFails? || !Allows(entries, key, t.get, fault) then entries else Counted(entries, key, t, fault)
  }

  class Limiter {
    const cache: Cache

    constructor (cache: Cache)
      ensures this.cache == cache
    {
      this.cache := cache;
    }

    method CheckLimit(key: string, t: Clock, fault: Fault) returns (r: Option<(bool, Info)>)
      ensures r.None? <==> fault.GetFails?
      ensures r.Some? ==> r.value == (Allows(cache.entries, key, t.get, NoFault), InfoOf(cache.entries, key, t, fault))
    {
      if fault.GetFails? {
        return None;
      }
      var current := cache.Get(key, t.get);
      if current.None? {
        return Some((true, Info(LIMIT, t.ttl + WINDOW, 0)));
      }
      var count := current.value;
      var ttl: int := WINDOW;
      if !fault.TTLFails? {
        ttl := cache.TTL(key, t.ttl);
      }
      var remaining := LIMIT - count;
      if remaining < 0 {
        remaining := 0;
      }
      var allowed, retryAfter := count < LIMIT, 0;
      if !allowed {
        retryAfter := ttl / 1000;
      }
      return Some((allowed, Info(remaining, t.ttl + ttl, retryAfter)));
    }

    method Increment(key: string, t: Clock, fault: Fault) returns (ok: bool)
      modifies cache
      ensures cache.entries == Counted(old(cache.entries), key, t, fault)
      ensures ok <==> !fault.ExistsFails? && !fault.IncrementFails? && !fault.IncrementUnanswered? &&
                      (Has(old(cache.entries), key, t.look) || (!fault.SetFails? && !fault.SetUnanswered?))
    {
      if fault.ExistsFails? {
        return false;
      }
      var existed := cache.Exists(key, t.look);
      if fault.IncrementFails? {
        return false;
      }
      var count := cache.Increment(key, t.increment);
      if fault.IncrementUnanswered? {
        return false;
      }
      if !existed {
        if fault.SetFails? {
          return false;
        }
        cache.Set(key, count, t.put, WINDOW);
        return !fault.SetUnanswered?;
      }
      return true;
    }

    /** Returns whether the request is passed on. A request without a tenant is not limited. */
    method LimitByTenant(tenant: Option<string>, endpoint: string, t: Clock, fault: Fault) returns (passed: bool)
      modifies cache
      ensures tenant.None? ==> passed && cache.entries == old(cache.entries)
      ensures tenant.Some? ==>
        var key := KeyOf(tenant.value, endpoint);
        && passed == Allows(old(cache.entries), key, t.get, fault)
        && cache.entries == After(old(cache.entries), key, t, fault)
        && forall other :: other != key ==>
             (other in cache.entries <==> other in old(cache.entries)) &&
             (other in old(cache.entries) ==> cache.entries[other] == old(cache.entries)[other])
    {
      if tenant.None? {
        return true;
      }
      var key := KeyOf(tenant.value, endpoint);
      var check := CheckLimit(key, t, fault);
      if check.None? {
        return true;
      }
      if !check.value.0 {
        return false;
      }
      var _ := Increment(key, t, fault);
      return true;
    }
  }

  function KeyOf(tenant: string, endpoint: string): string {
    KEY_PREFIX + tenant + ":" + endpoint
  }

  // ---------- Runs of requests ----------

  datatype Request = Request(key: string, t: Clock, fault: Fault)

  predicate Passes(entries: Entries, r: Request) {
    Allows(entries, r.key, r.t.get, r.fault)
  }

  /** A request with this fault is not counted when it passes. */
  predicate Uncounted(fault: Fault) {
    fault.GetFails? || fault.ExistsFails? || fault.IncrementFails?
  }

  /** The request passes, and is counted. */
  predicate Admits(entries: Entries, r: Request) {
    Passes(entries, r) && !Uncounted(r.fault)
  }

  function Next(entries: Entries, r: Request): Entries {
    After(entries, r.key, r.t, r.fault)
  }

  function AllAfter(entries: Entries, requests: seq<Request>): Entries
    decreases |requests|
  {
    if requests == [] then entries else AllAfter(Next(entries, requests[0]), requests[1..])
  }

  /** Times never go back; they may repeat. */
  predicate Ordered(requests: seq<Request>) {
    && (forall k :: 0 <= k < |requests| ==> Forward(requests[k].t))
    && (forall j, k :: 0 <= j < k < |requests| ==> requests[j].t.put <= requests[k].t.get)
  }

  predicate From(requests: seq<Request>, t: int) {
    forall k :: 0 <= k < |requests| ==> requests[k].t.get >= t
  }

  predicate In(r: Request, key: string, lo: int, hi: int) {
    r.key == key && lo <= r.t.get < hi
  }

  /** How many requests for the key in [lo, hi) are admitted. */
  function Admitted(entries: Entries, requests: seq<Request>, key: string, lo: int, hi: int): nat
    decreases |requests|
  {
    if requests == [] then 0
    else
      (if In(requests[0], key, lo, hi) && Admits(entries, requests[0]) then 1 else 0)
      + Admitted(Next(entries, requests[0]), requests[1..], key, lo, hi)
  }

  /** How many requests for the key in [lo, hi) pass, counted or not. */
  function Passed(entries: Entries, requests: seq<Request>, key: string, lo: int, hi: int): nat
    decreases |requests|
  {
    if requests == [] then 0
    else
      (if In(requests[0], key, lo, hi) && Passes(entries, requests[0]) then 1 else 0)
      + Passed(Next(entries, requests[0]), requests[1..], key, lo, hi)
  }

  /** How many requests for the key in [lo, hi) meet a fault that keeps them from being counted. */
  function Faulted(requests: seq<Request>, key: string, lo: int, hi: int): nat {
    if requests == [] then 0
    else (if In(requests[0], key, lo, hi) && Uncounted(requests[0].fault) then 1 else 0) +
         Faulted(requests[1..], key, lo, hi)
  }

  lemma {:induction false} PassedCounted(entries: Entries, requests: seq<Request>, key: string, lo: int, hi: int)
    ensures Passed(entries, requests, key, lo, hi) <=
            Admitted(entries, requests, key, lo, hi) + Faulted(requests, key, lo, hi)
    decreases |requests|
  {
    if requests != [] {
      PassedCounted(Next(entries, requests[0]), requests[1..], key, lo, hi);
    }
  }

  /** How many requests for the key there are in [lo, hi). */
  function Made(requests: seq<Request>, key: string, lo: int, hi: int): nat {
    if requests == [] then 0 else (if In(requests[0], key, lo, hi) then 1 else 0) + Made(requests[1..], key, lo, hi)
  }

  predicate Counting(entries: Entries) {
    forall k :: k in entries ==> entries[k].count >= 0
  }

  /** The requests that a key's current window still takes. */
  function Left(entries: Entries, key: string): nat
    requires key in entries
  {
    if LIMIT - entries[key].count < 0 then 0 else LIMIT - entries[key].count
  }

  lemma {:induction false} NoneFrom(entries: Entries, requests: seq<Request>, key: string, lo: int, hi: int)
    requires From(requests, hi)
    ensures Admitted(entries, requests, key, lo, hi) == Made(requests, key, lo, hi) == 0
    decreases |requests|
  {
    if requests != [] {
      NoneFrom(Next(entries, requests[0]), requests[1..], key, lo, hi);
    }
  }

  /** While a key's window lasts it takes what it has left. */
  lemma {:induction false} WithinWindow(entries: Entries, requests: seq<Request>, key: string, lo: int, hi: int)
    requires Ordered(requests) && key in entries && (entries[key].expiry.None? || hi <= entries[key].expiry.value)
    ensures Admitted(entries, requests, key, lo, hi) <= Left(entries, key)
    decreases |requests|
  {
    if requests != [] {
      if requests[0].t.get >= hi {
        NoneFrom(entries, requests, key, lo, hi);
      } else {
        var next := Next(entries, requests[0]);
        if next[key].expiry == entries[key].expiry {
          WithinWindow(next, requests[1..], key, lo, hi);
        } else {
          NoneFrom(next, requests[1..], key, lo, hi);
        }
      }
    }
  }

  /** A limit is not only a limit: while the window lasts, what it has left is admitted. */
  lemma {:induction false} WindowIsUsed(entries: Entries, requests: seq<Request>, key: string, lo: int, hi: int)
    requires Ordered(requests) && From(requests, lo) && key in entries
    requires entries[key].expiry.None? || hi <= entries[key].expiry.value
    requires forall k :: 0 <= k < |requests| ==> !Uncounted(requests[k].fault)
    ensures var made, left := Made(requests, key, lo, hi), Left(entries, key);
      Admitted(entries, requests, key, lo, hi) == if made < left then made else left
    decreases |requests|
  {
    if requests != [] {
      if requests[0].t.get >= hi {
        NoneFrom(entries, requests, key, lo, hi);
      } else {
        var next := Next(entries, requests[0]);
        if next[key].expiry == entries[key].expiry {
          WindowIsUsed(next, requests[1..], key, lo, hi);
        } else {
          NoneFrom(next, requests[1..], key, lo, hi);
        }
      }
    }
  }

  /** If all requests come at t or later, an interval of one window length holds at most what it holds from t on. */
  lemma {:induction false} Widen(entries: Entries, requests: seq<Request>, key: string, lo: int, hi: int, t: int)
    requires lo <= t && hi <= t + WINDOW && From(requests, t)
    ensures Admitted(entries, requests, key, lo, hi) <= Admitted(entries, requests, key, t, t + WINDOW)
    decreases |requests|
  {
    if requests != [] {
      Widen(Next(entries, requests[0]), requests[1..], key, lo, hi, t);
    }
  }

  /** From a moment when the key has no window, at most 50 requests are admitted within one window length. */
  lemma {:induction false} OneWindow(entries: Entries, requests: seq<Request>, key: string, lo: int)
    requires Ordered(requests) && From(requests, lo) && !Has(entries, key, lo)
    ensures Admitted(entries, requests, key, lo, lo + WINDOW) <= 50
    decreases |requests|
  {
    if requests != [] {
      var r, next := requests[0], Next(entries, requests[0]);
      if r.t.get >= lo + WINDOW {
        NoneFrom(entries, requests, key, lo, lo + WINDOW);
      } else if Has(next, key, r.t.get) {
        WithinWindow(next, requests[1..], key, lo, lo + WINDOW);
      } else {
        OneWindow(next, requests[1..], key, r.t.get);
        Widen(next, requests[1..], key, lo, lo + WINDOW, r.t.get);
      }
    }
  }

  /** A window that ends inside the interval is followed by at most one more. */
  lemma {:induction false} TwoWindows(entries: Entries, requests: seq<Request>, key: string, lo: int, hi: int)
    requires Ordered(requests) && From(requests, lo) && key in entries && entries[key].expiry.Some?
    requires hi <= entries[key].expiry.value + WINDOW
    ensures Admitted(entries, requests, key, lo, hi) <= Left(entries, key) + 50
    decreases |requests|
  {
    if requests != [] {
      var r := requests[0];
      var next := Next(entries, r);
      if r.t.get >= entries[key].expiry.value {
        OneWindow(entries, requests, key, r.t.get);
        Widen(entries, requests, key, lo, hi, r.t.get);
      } else if next[key].expiry == entries[key].expiry {
        TwoWindows(next, requests[1..], key, lo, hi);
      } else {
        WithinWindow(next, requests[1..], key, lo, hi);
      }
    }
  }

  /** At most 100 requests are admitted from any moment on within one window length. */
  lemma {:induction false} NextWindowLength(entries: Entries, requests: seq<Request>, key: string, lo: int)
    requires Counting(entries) && Ordered(requests) && From(requests, lo)
    ensures Admitted(entries, requests, key, lo, lo + WINDOW) <= 100
  {
    if !Has(entries, key, lo) {
      OneWindow(entries, requests, key, lo);
    } else if entries[key].expiry.None? {
      WithinWindow(entries, requests, key, lo, lo + WINDOW);
    } else {
      TwoWindows(entries, requests, key, lo, lo + WINDOW);
    }
  }

  lemma {:induction false} SlidingAdmitted(entries: Entries, requests: seq<Request>, key: string, lo: int)
    requires Counting(entries) && Ordered(requests)
    ensures Admitted(entries, requests, key, lo, lo + WINDOW) <= 100
    decreases |requests|
  {
    if requests != [] {
      if requests[0].t.get >= lo {
        NextWindowLength(entries, requests, key, lo);
      } else {
        SlidingAdmitted(Next(entries, requests[0]), requests[1..], key, lo);
      }
    }
  }

  /**
   * In every interval of one window length, wherever it lies, at most 100 requests for a key pass, besides those
   * whose calls to the cache fail.
   */
  lemma {:induction false} SlidingWindow(entries: Entries, requests: seq<Request>, key: string, lo: int)
    requires Counting(entries) && Ordered(requests)
    ensures Passed(entries, requests, key, lo, lo + WINDOW) <= 100 + Faulted(requests, key, lo, lo + WINDOW)
  {
    SlidingAdmitted(entries, requests, key, lo);
    PassedCounted(entries, requests, key, lo, lo + WINDOW);
  }

  /**
   * The 50 of a window, from the request that starts it to its expiry: besides the requests whose calls fail at
   * most 50 pass, and exactly that many if no call fails and as many are made.
   */
  lemma {:induction false} FixedWindow(entries: Entries, requests: seq<Request>, key: string)
    requires Ordered(requests) && requests != [] && requests[0].key == key
    requires !Uncounted(requests[0].fault) && !requests[0].fault.IncrementUnanswered? && !requests[0].fault.SetFails?
    requires !Has(entries, key, requests[0].t.get)
    ensures Has(Next(entries, requests[0]), key, requests[0].t.put)
    ensures Next(entries, requests[0])[key].expiry == Some(requests[0].t.put + 60000)
    ensures var lo, hi := requests[0].t.get, requests[0].t.put + WINDOW;
      && Passed(entries, requests, key, lo, hi) <= 50 + Faulted(requests, key, lo, hi)
      && ((forall k :: 0 <= k < |requests| ==> !Uncounted(requests[k].fault)) ==>
            Passed(entries, requests, key, lo, hi) ==
            if Made(requests, key, lo, hi) < 50 then Made(requests, key, lo, hi) else 50)
  {
    var lo, hi := requests[0].t.get, requests[0].t.put + WINDOW;
    var next := Next(entries, requests[0]);
    WithinWindow(next, requests[1..], key, lo, hi);
    PassedCounted(entries, requests, key, lo, hi);
    if forall k :: 0 <= k < |requests| ==> !Uncounted(requests[k].fault) {
      WindowIsUsed(next, requests[1..], key, lo, hi);
      AllCounted(entries, requests, key, lo, hi);
    }
  }

  lemma {:induction false} AllCounted(entries: Entries, requests: seq<Request>, key: string, lo: int, hi: int)
    requires forall k :: 0 <= k < |requests| ==> !Uncounted(requests[k].fault)
    ensures Passed(entries, requests, key, lo, hi) == Admitted(entries, requests, key, lo, hi)
    decreases |requests|
  {
    if requests != [] {
      AllCounted(Next(entries, requests[0]), requests[1..], key, lo, hi);
    }
  }

  // ---------- Tenants and endpoints ----------

  lemma {:induction false} KeyParts(tenant: string, endpoint: string)
    ensures var key, n := KeyOf(tenant, endpoint), |KEY_PREFIX|;
      && |key| == n + |tenant| + 1 + |endpoint| && key[n..] == tenant + ":" + endpoint
      && (forall k :: 0 <= k < |tenant| ==> key[n + k] == tenant[k]) && key[n + |tenant|] == ':'
      && key[n + |tenant| + 1..] == endpoint
  {
  }

  /** Two tenants can share a key exactly if one is the beginning of the other, up to a colon. */
  lemma {:induction false} KeysCollide(a: string, b: string)
    requires a != b
    ensures (exists x, y :: KeyOf(a, x) == KeyOf(b, y)) <==> a + ":" <= b || b + ":" <= a
  {
    if x, y :| KeyOf(a, x) == KeyOf(b, y) {
      if |a| <= |b| {
        EqualKeys(a, x, b, y);
      } else {
        EqualKeys(b, y, a, x);
      }
    }
    if a + ":" <= b {
      Collide(a, b);
    } else if b + ":" <= a {
      Collide(b, a);
    }
  }

  lemma {:induction false} Collide(a: string, b: string)
    requires a + ":" <= b
    ensures exists x :: KeyOf(a, x) == KeyOf(b, "")
  {
    var x := b[|a| + 1..] + ":";
    assert b == a + ":" + b[|a| + 1..];
    assert KeyOf(a, x) == KeyOf(b, "");
  }

  lemma {:induction false} EqualKeys(a: string, x: string, b: string, y: string)
    requires KeyOf(a, x) == KeyOf(b, y) && |a| <= |b|
    ensures (a == b && x == y) || a + ":" <= b
  {
    var n := |KEY_PREFIX|;
    KeyParts(a, x);
    KeyParts(b, y);
    forall k | 0 <= k < |a|
      ensures a[k] == b[k]
    {
      assert KeyOf(a, x)[n + k] == a[k] && KeyOf(b, y)[n + k] == b[k];
    }
    if |a| == |b| {
      assert a == b;
    } else {
      assert KeyOf(b, y)[n + |a|] == b[|a|];
      assert b[..|a| + 1] == a + ":";
    }
  }

  lemma {:induction false} ColonInside(a: string, b: string)
    requires a + ":" <= b
    ensures ':' in b
  {
    assert b[|a|] == (a + ":")[|a|];
  }

  /** A tenant's id has no colon in it; then its key is that of no other tenant, and of no other endpoint. */
  lemma {:induction false} KeyTells(a: string, x: string, b: string, y: string)
    requires ':' !in a && ':' !in b
    ensures KeyOf(a, x) == KeyOf(b, y) <==> a == b && x == y
  {
    if a + ":" <= b {
      ColonInside(a, b);
    } else if b + ":" <= a {
      ColonInside(b, a);
    } else if KeyOf(a, x) == KeyOf(b, y) {
      if |a| <= |b| {
        EqualKeys(a, x, b, y);
      } else {
        EqualKeys(b, y, a, x);
      }
    }
  }

  /** A request as the middleware sees it. */
  datatype Arrival = Arrival(tenant: string, endpoint: string, t: Clock, fault: Fault)

  function Requested(arrivals: seq<Arrival>): seq<Request> {
    if arrivals == [] then []
    else [Request(KeyOf(arrivals[0].tenant, arrivals[0].endpoint), arrivals[0].t, arrivals[0].fault)] +
         Requested(arrivals[1..])
  }

  /** The arrivals of this tenant at this endpoint. */
  function Own(arrivals: seq<Arrival>, tenant: string, endpoint: string): seq<Arrival> {
    if arrivals == [] then []
    else (if arrivals[0].tenant == tenant && arrivals[0].endpoint == endpoint then [arrivals[0]] else []) +
         Own(arrivals[1..], tenant, endpoint)
  }

  /** Both caches hold the same for this key. */
  predicate Agree(a: Entries, b: Entries, key: string) {
    (key in a <==> key in b) && (key in a ==> a[key] == b[key])
  }

  function OfKey(requests: seq<Request>, key: string): seq<Request> {
    if requests == [] then []
    else (if requests[0].key == key then [requests[0]] else []) + OfKey(requests[1..], key)
  }

  lemma {:induction false} OwnAreOfKey(arrivals: seq<Arrival>, tenant: string, endpoint: string)
    requires ':' !in tenant && forall k :: 0 <= k < |arrivals| ==> ':' !in arrivals[k].tenant
    ensures OfKey(Requested(arrivals), KeyOf(tenant, endpoint)) == Requested(Own(arrivals, tenant, endpoint))
  {
    if arrivals != [] {
      OwnAreOfKey(arrivals[1..], tenant, endpoint);
      KeyTells(arrivals[0].tenant, arrivals[0].endpoint, tenant, endpoint);
      assert Requested(arrivals)[1..] == Requested(arrivals[1..]);
      var own := Own(arrivals[1..], tenant, endpoint);
      assert ([arrivals[0]] + own)[1..] == own && [] + own == own;
    }
  }

  lemma {:induction false} NextAgrees(a: Entries, b: Entries, r: Request, key: string)
    requires Agree(a, b, key)
    ensures if r.key == key then Agree(Next(a, r), Next(b, r), key) && (Passes(a, r) <==> Passes(b, r))
            else Agree(Next(a, r), b, key)
  {
  }

  lemma {:induction false} KeysAreIsolated(a: Entries, b: Entries, requests: seq<Request>, key: string,
                                           lo: int, hi: int)
    requires Agree(a, b, key)
    ensures Agree(AllAfter(a, requests), AllAfter(b, OfKey(requests, key)), key)
    ensures Passed(a, requests, key, lo, hi) == Passed(b, OfKey(requests, key), key, lo, hi)
    decreases |requests|
  {
    if requests != [] {
      var r, own := requests[0], OfKey(requests[1..], key);
      NextAgrees(a, b, r, key);
      if r.key == key {
        assert ([r] + own)[1..] == own;
        KeysAreIsolated(Next(a, r), Next(b, r), requests[1..], key, lo, hi);
      } else {
        assert [] + own == own;
        KeysAreIsolated(Next(a, r), b, requests[1..], key, lo, hi);
      }
    }
  }

  /**
   * Over every run: how many requests of a tenant pass at an endpoint, and what the cache holds for them, does not
   * depend on what other tenants request, nor on what the tenant requests elsewhere.
   */
  lemma {:induction false} TenantsAreIsolated(a: Entries, b: Entries, arrivals: seq<Arrival>, tenant: string,
                                              endpoint: string, lo: int, hi: int)
    requires ':' !in tenant && forall k :: 0 <= k < |arrivals| ==> ':' !in arrivals[k].tenant
    requires Agree(a, b, KeyOf(tenant, endpoint))
    ensures var key, own := KeyOf(tenant, endpoint), Requested(Own(arrivals, tenant, endpoint));
      && Agree(AllAfter(a, Requested(arrivals)), AllAfter(b, own), key)
      && Passed(a, Requested(arrivals), key, lo, hi) == Passed(b, own, key, lo, hi)
  {
    OwnAreOfKey(arrivals, tenant, endpoint);
    KeysAreIsolated(a, b, Requested(arrivals), KeyOf(tenant, endpoint), lo, hi);
  }

  // ---------- What a request is told ----------

  /**
   * A rejected request is told the time its key stays closed, rounded to seconds: it is less than half a second too
   * short or at most half a second too long. After that time the caller is let in exactly if it was not rounded
   * down, and half a second later always.
   */
  lemma {:induction false} RetryAfterRounds(entries: Entries, key: string, t: Clock, later: int)
    requires !Allows(entries, key, t.get, NoFault) && Has(entries, key, t.ttl) && entries[key].expiry.Some?
    requires Forward(t) && later >= t.ttl
    ensures var left, wait := entries[key].expiry.value - t.ttl, 1000 * InfoOf(entries, key, t, NoFault).retryAfter;
      && left - 500 < wait <= left + 500
      && (Allows(entries, key, later, NoFault) <==> later >= t.ttl + left)
      && (Allows(entries, key, t.ttl + wait, NoFault) <==> left % 1000 == 0 || left % 1000 >= 500)
      && Allows(entries, key, t.ttl + wait + 500, NoFault)
  {
  }

  /** What is remaining is exactly how many more requests pass while the window lasts, as far as so many are made. */
  lemma {:induction false} RemainingIsExact(entries: Entries, key: string, t: Clock, fault: Fault,
                                            requests: seq<Request>, hi: int)
    requires Has(entries, key, t.get) && (entries[key].expiry.None? || hi <= entries[key].expiry.value)
    requires Ordered(requests) && From(requests, t.get)
    requires forall k :: 0 <= k < |requests| ==> !Uncounted(requests[k].fault)
    ensures var made, remaining := Made(requests, key, t.get, hi), InfoOf(entries, key, t, fault).remaining;
      Passed(entries, requests, key, t.get, hi) == if made < remaining then made else remaining
  {
    WindowIsUsed(entries, requests, key, t.get, hi);
    AllCounted(entries, requests, key, t.get, hi);
  }

  /**
   * The reset time is that at which the key opens, rounded like the time left: less than half a second early, at
   * most half a second late. A key that is not there is announced with a whole window, of 60 seconds; so is one whose
   * time left cannot be read.
   */
  lemma {:induction false} ResetOpens(entries: Entries, key: string, t: Clock, fault: Fault)
    requires Forward(t)
    ensures var info := InfoOf(entries, key, t, fault);
      if !Has(entries, key, t.get) then info == Info(50, t.ttl + 60000, 0)
      else if fault.TTLFails? then info.reset == t.ttl + 60000
      else if !Has(entries, key, t.ttl) || entries[key].expiry.None? then info.reset == t.ttl
      else
        var opens := entries[key].expiry.value;
        && opens - 500 < info.reset <= opens + 500 && (info.reset - t.ttl) % 1000 == 0
        && !Has(entries, key, info.reset + 500)
        && (!Has(entries, key, info.reset) <==> (opens - t.ttl) % 1000 == 0 || (opens - t.ttl) % 1000 >= 500)
  {
  }

  /** No requests, for whatever keys and with whatever faults, open a closed key before its time. */
  lemma {:induction false} ClosedStaysClosed(entries: Entries, requests: seq<Request>, key: string, later: int)
    requires !Allows(entries, key, later, NoFault)
    requires forall k :: 0 <= k < |requests| ==> Forward(requests[k].t) && requests[k].t.put <= later
    ensures !Allows(AllAfter(entries, requests), key, later, NoFault)
    decreases |requests|
  {
    if requests != [] {
      ClosedStaysClosed(Next(entries, requests[0]), requests[1..], key, later);
    }
  }

  // ---------- A key that never expires ----------

  predicate NoExpiry(entries: Entries, key: string) {
    key in entries && entries[key].expiry.None?
  }

  /**
   * The request's increment creates the key, and nothing sets its expiry: the reply to the increment is lost, setting
   * the expiry fails, or the key was still there when the request looked.
   */
  predicate Strands(entries: Entries, r: Request, key: string) {
    && r.key == key && Passes(entries, r) && !Uncounted(r.fault)
    && !Has(entries, key, r.t.increment)
    && (r.fault.IncrementUnanswered? || r.fault.SetFails? || Has(entries, key, r.t.look))
  }

  /** Some request of the run strands the key. */
  predicate Stranded(entries: Entries, requests: seq<Request>, key: string)
    decreases |requests|
  {
    requests != [] &&
    (Strands(entries, requests[0], key) || Stranded(Next(entries, requests[0]), requests[1..], key))
  }

  /** Over every run a key is without expiry exactly if it was before, or a request stranded it. */
  lemma {:induction false} NoExpiryExactly(entries: Entries, requests: seq<Request>, key: string)
    requires forall k :: 0 <= k < |requests| ==> Forward(requests[k].t)
    ensures NoExpiry(AllAfter(entries, requests), key) <==>
            NoExpiry(entries, key) || Stranded(entries, requests, key)
    decreases |requests|
  {
    if requests != [] {
      NoExpiryExactly(Next(entries, requests[0]), requests[1..], key);
    }
  }

  lemma {:induction false} ExpiresBy(entries: Entries, requests: seq<Request>, key: string, later: int)
    requires forall k :: 0 <= k < |requests| ==> requests[k].t.put + WINDOW <= later
    requires key in entries && entries[key].expiry.Some? ==> entries[key].expiry.value <= later
    ensures var after := AllAfter(entries, requests);
      key in after && after[key].expiry.Some? ==> after[key].expiry.value <= later
    decreases |requests|
  {
    if requests != [] {
      ExpiresBy(Next(entries, requests[0]), requests[1..], key, later);
    }
  }

  /** From the empty cache, a window's length after the last request, a key is left exactly if one stranded it. */
  lemma {:induction false} WindowsExpire(requests: seq<Request>, key: string, later: int)
    requires forall k :: 0 <= k < |requests| ==> Forward(requests[k].t) && requests[k].t.put + WINDOW <= later
    ensures Has(AllAfter(map[], requests), key, later) <==> Stranded(map[], requests, key)
  {
    NoExpiryExactly(map[], requests, key);
    ExpiresBy(map[], requests, key, later);
  }

  /** The reply to the first increment of a key is lost: the key stays for ever. */
  lemma {:induction false} LostReplyStrands(key: string, t: Clock, later: int)
    requires Forward(t)
    ensures var r := Request(key, t, IncrementUnanswered);
      AllAfter(map[], [r]) == map[key := Entry(1, None)] && Has(AllAfter(map[], [r]), key, later)
  {
    assert [Request(key, t, IncrementUnanswered)][1..] == [];
  }

  /** No call fails, but the key expires between the look and the increment of the second request. */
  lemma {:induction false} ExpiryInBetweenStrands(key: string, later: int)
    ensures var first := Request(key, Clock(0, 0, 0, 0, 0), NoFault);
      var second := Request(key, Clock(WINDOW - 1, WINDOW - 1, WINDOW - 1, WINDOW, WINDOW), NoFault);
      && Ordered([first, second])
      && AllAfter(map[], [first, second]) == map[key := Entry(1, None)]
      && Has(AllAfter(map[], [first, second]), key, later)
  {
    var first := Request(key, Clock(0, 0, 0, 0, 0), NoFault);
    var second := Request(key, Clock(WINDOW - 1, WINDOW - 1, WINDOW - 1, WINDOW, WINDOW), NoFault);
    assert [first, second][1..] == [second] && [second][1..] == [];
    assert Next(map[], first) == map[key := Entry(1, Some(WINDOW))];
    assert Next(Next(map[], first), second) == map[key := Entry(1, None)];
    assert AllAfter(map[], [first, second]) == AllAfter(Next(map[], first), [second]);
  }

  /**
   * A stranded key never expires: it admits 49 more requests in all, however long the run, besides those whose
   * calls fail.
   */
  lemma {:induction false} StrandedClosesForEver(entries: Entries, r: Request, requests: seq<Request>, lo: int, hi: int)
    requires Strands(entries, r, r.key) && Forward(r.t) && Ordered(requests)
    ensures Passed(Next(entries, r), requests, r.key, lo, hi) <= 49 + Faulted(requests, r.key, lo, hi)
  {
    WithinWindow(Next(entries, r), requests, r.key, lo, hi);
    PassedCounted(Next(entries, r), requests, r.key, lo, hi);
  }

  // ---------- Requests at the same time ----------

  /** Where a request stands: it has been let in, it has looked for the key, it has created it, or it is through. */
  datatype Stage = LetIn | Looked(found: bool) | Created(count: int) | Over

  datatype Flight = Flight(key: string, stage: Stage)

  datatype Shared = Shared(entries: Entries, flights: seq<Flight>)

  /** One call of request i, at time now; Vanish is the end of the server that handles it. */
  datatype Call =
    | Check(key: string, now: int)
    | Look(i: nat, now: int, ok: bool)
    | Add(i: nat, now: int, applied: bool, answered: bool)
    | Put(i: nat, now: int, applied: bool)
    | Vanish(i: nat)

  predicate Possible(s: Shared, c: Call) {
    match c
    case Check(_, _) => true
    case Look(i, _, _) => i < |s.flights| && s.flights[i].stage.LetIn?
    case Add(i, _, _, _) => i < |s.flights| && s.flights[i].stage.Looked?
    case Put(i, _, _) => i < |s.flights| && s.flights[i].stage.Created?
    case Vanish(i) => i < |s.flights|
  }

  function At(flights: seq<Flight>, i: nat, stage: Stage): seq<Flight>
    requires i < |flights|
  {
    flights[i := flights[i].(stage := stage)]
  }

  function Called(s: Shared, c: Call): Shared
    requires Possible(s, c)
  {
    match c
    case Check(key, now) =>
      s.(flights := s.flights + [Flight(key, if Allows(s.entries, key, now, NoFault) then LetIn else Over)])
    case Look(i, now, ok) =>
      s.(flights := At(s.flights, i, if ok then Looked(Has(s.entries, s.flights[i].key, now)) else Over))
    case Add(i, now, applied, answered) =>
      var key := s.flights[i].key;
      var after := if applied then Incremented(s.entries, key, now) else s.entries;
      Shared(after, At(s.flights, i, if applied && answered && !s.flights[i].stage.found then Created(after[key].count)
                                     else Over))
    case Put(i, now, applied) =>
      var f := s.flights[i];
      Shared(if applied then s.entries[f.key := Entry(f.stage.count, Some(now + WINDOW))] else s.entries,
             At(s.flights, i, Over))
    case Vanish(i) => s.(flights := At(s.flights, i, Over))
  }

  predicate ValidCalls(s: Shared, calls: seq<Call>)
    decreases |calls|
  {
    calls == [] || (Possible(s, calls[0]) && ValidCalls(Called(s, calls[0]), calls[1..]))
  }

  function AfterCalls(s: Shared, calls: seq<Call>): Shared
    requires ValidCalls(s, calls)
    decreases |calls|
  {
    if calls == [] then s else AfterCalls(Called(s, calls[0]), calls[1..])
  }

  /** The call creates the key for a request that will not set its expiry, or a request that should set it does not. */
  predicate StrandsCall(s: Shared, c: Call, key: string)
    requires Possible(s, c)
  {
    match c
    case Add(i, now, applied, answered) =>
      s.flights[i].key == key && applied && !Has(s.entries, key, now) && (s.flights[i].stage.found || !answered)
    case Put(i, _, applied) => s.flights[i].key == key && !applied
    case Vanish(i) => s.flights[i].key == key && s.flights[i].stage.Created?
    case _ => false
  }

  predicate StrandedCalls(s: Shared, calls: seq<Call>, key: string)
    requires ValidCalls(s, calls)
    decreases |calls|
  {
    calls != [] && (StrandsCall(s, calls[0], key) || StrandedCalls(Called(s, calls[0]), calls[1..], key))
  }

  /** A key without expiry has a request on its way that is about to set it. */
  ghost predicate WillExpire(s: Shared, key: string) {
    NoExpiry(s.entries, key) ==>
      exists i: nat :: i < |s.flights| && s.flights[i].key == key && s.flights[i].stage.Created?
  }

  lemma {:induction false} CallKeepsExpiry(s: Shared, c: Call, key: string)
    requires Possible(s, c) && WillExpire(s, key) && !StrandsCall(s, c, key)
    ensures WillExpire(Called(s, c), key)
  {
    var t := Called(s, c);
    if NoExpiry(t.entries, key) {
      if NoExpiry(s.entries, key) {
        var i: nat :| i < |s.flights| && s.flights[i].key == key && s.flights[i].stage.Created?;
        assert t.flights[i].key == key && t.flights[i].stage.Created?;
      } else {
        assert c.Add? && t.flights[c.i].key == key && t.flights[c.i].stage.Created?;
      }
    }
  }

  lemma {:induction false} CallsKeepExpiry(s: Shared, calls: seq<Call>, key: string)
    requires ValidCalls(s, calls) && WillExpire(s, key) && !StrandedCalls(s, calls, key)
    ensures WillExpire(AfterCalls(s, calls), key)
    decreases |calls|
  {
    if calls != [] {
      CallKeepsExpiry(s, calls[0], key);
      CallsKeepExpiry(Called(s, calls[0]), calls[1..], key);
    }
  }

  /**
   * However the calls of any number of requests interleave: unless one of them strands the key, it has an expiry as
   * soon as all its requests are through.
   */
  lemma {:induction false} InterleavedExpire(calls: seq<Call>, key: string)
    requires ValidCalls(Shared(map[], []), calls) && !StrandedCalls(Shared(map[], []), calls, key)
    requires forall f :: f in AfterCalls(Shared(map[], []), calls).flights && f.key == key ==> f.stage.Over?
    ensures !NoExpiry(AfterCalls(Shared(map[], []), calls).entries, key)
  {
    CallsKeepExpiry(Shared(map[], []), calls, key);
  }
}
