/**
 The per-client request quota: a counter per client and minute bucket, whose expiry is set
 by the first hit only, and a request is admitted while the count is within the plan's limit.
 Times are milliseconds; the cache is assumed to answer.
 */
module RateLimit {
  import opened Money

  type Client = int

  const WINDOW: nat := 60000

  datatype Key = Key(client: Client, bucket: nat)
  datatype Counter = Counter(count: nat, expires: nat)
  datatype Request = Request(client: Client, at: nat)

  function KeyOf(r: Request): Key {
    Key(r.client, r.at / WINDOW)
  }

  /** INCR, with PEXPIRE only when the counter starts at one. */
  function Bump(counters: map<Key, Counter>, key: Key, now: nat): Counter {
    if key in counters && now < counters[key].expires then Counter(counters[key].count + 1, counters[key].expires)
    else Counter(1, now + WINDOW)
  }

  class Limiter {
    var counters: map<Key, Counter>

    constructor ()
      ensures counters == map[]
    {
      counters := map[];
    }

    method IncrementWithTTL(key: Key, now: nat) returns (count: nat)
      modifies this
      ensures counters == old(counters)[key := Bump(old(counters), key, now)]
      ensures count == counters[key].count
    {
      count := 1;
      var expires := now + WINDOW;
      if key in counters && now < counters[key].expires {
        count, expires := counters[key].count + 1, counters[key].expires;
      }
      counters := counters[key := Counter(count, expires)];
    }

    method Admit(r: Request, limit: nat) returns (admitted: bool, remaining: nat)
      modifies this
      ensures counters == old(counters)[KeyOf(r) := Bump(old(counters), KeyOf(r), r.at)]
      ensures admitted <==> counters[KeyOf(r)].count <= limit
      ensures remaining == Max(0, limit - counters[KeyOf(r)].count)
    {
      var count := IncrementWithTTL(KeyOf(r), r.at);
      remaining := if limit < count then 0 else limit - count;
      admitted := !(count > limit);
    }
  }

  // ---------- runs ----------

  function Counters(reqs: seq<Request>): map<Key, Counter> {
    if reqs == [] then map[]
    else
      var before, r := Counters(reqs[..|reqs| - 1]), reqs[|reqs| - 1];
      before[KeyOf(r) := Bump(before, KeyOf(r), r.at)]
  }

  /** Whether the last request of the run is admitted. */
  predicate LastAdmitted(reqs: seq<Request>, limit: nat)
    requires reqs != []
  {
    var r := reqs[|reqs| - 1];
    Bump(Counters(reqs[..|reqs| - 1]), KeyOf(r), r.at).count <= limit
  }

  function Hits(reqs: seq<Request>, key: Key): nat {
    if reqs == [] then 0
    else Hits(reqs[..|reqs| - 1], key) + if KeyOf(reqs[|reqs| - 1]) == key then 1 else 0
  }

  function Admitted(reqs: seq<Request>, key: Key, limit: nat): nat {
    if reqs == [] then 0
    else
      Admitted(reqs[..|reqs| - 1], key, limit)
      + if KeyOf(reqs[|reqs| - 1]) == key && LastAdmitted(reqs, limit) then 1 else 0
  }

  predicate InSpan(r: Request, client: Client, start: nat) {
    r.client == client && start <= r.at < start + 60000
  }

  /** The client's requests admitted within one minute from `start`. */
  function AdmittedInSpan(reqs: seq<Request>, client: Client, start: nat, limit: nat): nat {
    if reqs == [] then 0
    else
      AdmittedInSpan(reqs[..|reqs| - 1], client, start, limit)
      + if InSpan(reqs[|reqs| - 1], client, start) && LastAdmitted(reqs, limit) then 1 else 0
  }

  /** A counter never resets inside its own bucket: it outlives it, and counts every hit. */
  lemma {:induction false} CounterCountsHits(reqs: seq<Request>, key: Key)
    ensures var c := Counters(reqs);
            && (key in c <==> Hits(reqs, key) > 0)
            && (key in c ==> c[key].count == Hits(reqs, key) && c[key].expires >= (key.bucket + 1) * 60000)
  {
    if reqs != [] {
      CounterCountsHits(reqs[..|reqs| - 1], key);
    }
  }

  /** When the bucket's first request came; the others do not matter. */
  function FirstHit(reqs: seq<Request>, key: Key): nat {
    if reqs == [] then 0
    else if KeyOf(reqs[0]) == key then reqs[0].at
    else FirstHit(reqs[1..], key)
  }

  lemma {:induction false} FirstHitStays(reqs: seq<Request>, r: Request, key: Key)
    ensures Hits(reqs, key) > 0 ==> FirstHit(reqs + [r], key) == FirstHit(reqs, key)
    ensures Hits(reqs, key) == 0 && KeyOf(r) == key ==> FirstHit(reqs + [r], key) == r.at
  {
    if reqs == [] {
      assert [] + [r] == [r];
    } else {
      assert (reqs + [r])[1..] == reqs[1..] + [r];
      HitsFromTheFront(reqs, key);
      FirstHitStays(reqs[1..], r, key);
    }
  }

  lemma {:induction false} HitsFromTheFront(reqs: seq<Request>, key: Key)
    requires reqs != []
    ensures Hits(reqs, key) == (if KeyOf(reqs[0]) == key then 1 else 0) + Hits(reqs[1..], key)
  {
    var n := |reqs| - 1;
    if n > 0 {
      HitsFromTheFront(reqs[..n], key);
      assert reqs[..n][1..] == reqs[1..][..n - 1];
    }
  }

  /** A counter expires a minute after its first hit, however many follow. */
  lemma {:induction false} ExpiryIsSetOnce(reqs: seq<Request>, key: Key)
    requires Hits(reqs, key) > 0
    ensures key in Counters(reqs) && Counters(reqs)[key].expires == FirstHit(reqs, key) + 60000
  {
    var rest, r := reqs[..|reqs| - 1], reqs[|reqs| - 1];
    assert reqs == rest + [r];
    FirstHitStays(rest, r, key);
    CounterCountsHits(rest, key);
    if Hits(rest, key) > 0 {
      ExpiryIsSetOnce(rest, key);
    }
  }

  /** In every run, each client gets through exactly `limit` requests per bucket, or all if fewer. */
  lemma {:induction false} AdmittedPerBucket(reqs: seq<Request>, key: Key, limit: nat)
    ensures Admitted(reqs, key, limit) == Min(limit, Hits(reqs, key))
  {
    if reqs != [] {
      AdmittedPerBucket(reqs[..|reqs| - 1], key, limit);
      CounterCountsHits(reqs[..|reqs| - 1], key);
    }
  }

  /** A minute touches two buckets. */
  lemma {:induction false} SpanIsInTwoBuckets(reqs: seq<Request>, client: Client, start: nat, limit: nat)
    ensures AdmittedInSpan(reqs, client, start, limit)
         <= Admitted(reqs, Key(client, start / WINDOW), limit) + Admitted(reqs, Key(client, start / WINDOW + 1), limit)
  {
    if reqs != [] {
      SpanIsInTwoBuckets(reqs[..|reqs| - 1], client, start, limit);
    }
  }

  /** In every run and every span of a minute, a client gets through at most twice its limit. */
  lemma AtMostTwiceTheLimit(reqs: seq<Request>, client: Client, start: nat, limit: nat)
    ensures AdmittedInSpan(reqs, client, start, limit) <= 2 * limit
  {
    SpanIsInTwoBuckets(reqs, client, start, limit);
    AdmittedPerBucket(reqs, Key(client, start / WINDOW), limit);
    AdmittedPerBucket(reqs, Key(client, start / WINDOW + 1), limit);
  }

  // ---------- the bound is reached ----------

  /** A full quota in the last millisecond of a bucket and another in the first of the next. */
  function Burst(client: Client, limit: nat, k: nat): seq<Request> {
    seq(k, i => Request(client, if i < limit then 59999 else 60000))
  }

  lemma {:induction false} BurstHits(client: Client, limit: nat, k: nat)
    ensures Hits(Burst(client, limit, k), Key(client, 0)) == Min(k, limit)
    ensures Hits(Burst(client, limit, k), Key(client, 1)) == Max(0, k - limit)
  {
    if k > 0 {
      BurstHits(client, limit, k - 1);
      assert Burst(client, limit, k)[..k - 1] == Burst(client, limit, k - 1);
    }
  }

  /** Twice the limit does get through within two milliseconds. */
  lemma {:induction false} TwiceTheLimitIsReached(client: Client, limit: nat, k: nat)
    requires k <= 2 * limit
    ensures AdmittedInSpan(Burst(client, limit, k), client, 59999, limit) == k
  {
    if k > 0 {
      TwiceTheLimitIsReached(client, limit, k - 1);
      var all, rest := Burst(client, limit, k), Burst(client, limit, k - 1);
      assert all[..k - 1] == rest;
      var key := KeyOf(all[k - 1]);
      BurstHits(client, limit, k - 1);
      CounterCountsHits(rest, key);
      assert key == Key(client, 0) || key == Key(client, 1);
      assert LastAdmitted(all, limit);
    }
  }
}
