/** Delivering one payload with retries and a linear backoff (internal/webhook/client.go). Whether a
    POST succeeds and whether a wait ends by cancellation are inputs; int and time.Duration are 64-bit
    and wrap. */
module Webhook {

  const MAX_INT64: int := 0x7fff_ffff_ffff_ffff

  function Wrap(x: int): int { (x + MAX_INT64 + 1) % (2 * (MAX_INT64 + 1)) - (MAX_INT64 + 1) }

  lemma WrapFits(x: int)
    ensures -MAX_INT64 - 1 <= Wrap(x) <= MAX_INT64
    ensures Wrap(x) == x <==> -MAX_INT64 - 1 <= x <= MAX_INT64
  {}

  datatype Result = Delivered | Cancelled | Failed

  /** `posted(k)`: the k-th POST gets a 2xx answer. `cancelled(k)`: the wait before it is cut short. */
  datatype Weather = Weather(posted: nat -> bool, cancelled: nat -> bool)

  function Sum(xs: seq<int>): int { if xs == [] then 0 else Sum(xs[..|xs| - 1]) + xs[|xs| - 1] }

  /** The waits requested before attempts 2 to k. */
  function Backoff(delay: int, k: nat): seq<int> {
    if k <= 1 then [] else Backoff(delay, k - 1) + [Wrap(delay * (k - 1))]
  }

  /** No POST before attempt k was answered well, and no wait up to the one before it was cut short. */
  ghost predicate AllFailed(w: Weather, k: nat) {
    (forall i :: 1 <= i < k ==> !w.posted(i)) && (forall i :: 2 <= i <= k ==> !w.cancelled(i))
  }

  /** A delivery with up to n POSTs is over once k of them are made. */
  ghost predicate EndsAt(w: Weather, n: nat, k: nat) {
    1 <= k <= n && AllFailed(w, k) && (w.posted(k) || k == n || w.cancelled(k + 1))
  }

  ghost predicate Succeeds(w: Weather, n: nat) { exists k :: EndsAt(w, n, k) && w.posted(k) }

  ghost predicate FailsAll(w: Weather, n: nat) { EndsAt(w, n, n) && !w.posted(n) }

  /** The ends of a delivery exclude each other, so the weather alone fixes how many POSTs are made. */
  lemma EndIsUnique(w: Weather, n: nat, k: nat, k': nat)
    requires EndsAt(w, n, k) && EndsAt(w, n, k')
    ensures k == k'
  {}

  /** And so the end says how the delivery turns out. */
  lemma EndDecides(w: Weather, n: nat, k: nat)
    requires EndsAt(w, n, k)
    ensures Succeeds(w, n) <==> w.posted(k)
    ensures FailsAll(w, n) <==> k == n && !w.posted(n)
  {
    forall k' | EndsAt(w, n, k') ensures k' == k { EndIsUnique(w, n, k, k'); }
  }

  /** With n >= 0 retries there are 1 to n + 1 POSTs. Success is returned exactly when the last POST made
      succeeded, and then every earlier one failed; cancellation exactly when retries were left and the
      next wait was cut short; failure exactly when all n + 1 failed. `posts` counts POSTs and `waits`
      lists the waits requested. A negative count, or one whose successor wraps, means no POST at all. */
  method SendToURL(retries: int, delay: nat, w: Weather) returns (r: Result, ghost posts: nat, ghost waits: seq<int>)
    requires -MAX_INT64 - 1 <= retries <= MAX_INT64 && delay <= MAX_INT64
    ensures 0 <= retries < MAX_INT64 ==> EndsAt(w, retries + 1, posts)
    ensures retries < 0 || retries == MAX_INT64 ==> r == Failed && posts == 0
    ensures r == Delivered <==> posts > 0 && w.posted(posts)
    ensures r == Cancelled <==> 0 < posts <= retries && !w.posted(posts) && w.cancelled(posts + 1)
    ensures waits == Backoff(delay, if r == Cancelled then posts + 1 else posts)
    // without the ghosts: the result is fixed by where the attempts come to their one end
    ensures 0 <= retries < MAX_INT64 ==> (r == Delivered <==> Succeeds(w, retries + 1))
    ensures 0 <= retries < MAX_INT64 ==> (r == Failed <==> FailsAll(w, retries + 1))
  {
    r, posts, waits := Attempts(Wrap(retries + 1), delay, w);
    WrapFits(retries + 1);
    if 0 <= retries < MAX_INT64 {
      EndDecides(w, retries + 1, posts);
    }
  }

  /** The loop itself. */
  method Attempts(maxAttempts: int, delay: nat, w: Weather) returns (r: Result, ghost posts: nat, ghost waits: seq<int>)
    ensures maxAttempts > 0 ==> EndsAt(w, maxAttempts, posts)
    ensures maxAttempts <= 0 ==> r == Failed && posts == 0
    ensures r == Delivered <==> posts > 0 && w.posted(posts)
    ensures r == Cancelled <==> 0 < posts < maxAttempts && !w.posted(posts) && w.cancelled(posts + 1)
    ensures waits == Backoff(delay, if r == Cancelled then posts + 1 else posts)
  {
    posts, waits := 0, [];
    var attempt := 1;
    while attempt <= maxAttempts
      invariant 1 <= attempt && posts == attempt - 1
      invariant attempt <= maxAttempts + 1 || (attempt == 1 && maxAttempts <= 0)
      invariant waits == Backoff(delay, posts)
      invariant AllFailed(w, posts)
      invariant posts > 0 ==> !w.posted(posts)
      decreases maxAttempts - attempt
    {
      if attempt > 1 {
        waits := waits + [Wrap(delay * (attempt - 1))];
        if w.cancelled(attempt) { return Cancelled, posts, waits; }
      }
      posts := posts + 1;
      if w.posted(attempt) { return Delivered, posts, waits; }
      attempt := attempt + 1;
    }
    r := Failed;
  }

  lemma ProductOrder(d: nat, a: nat, b: nat)
    requires a <= b
    ensures 0 <= d * a <= d * b
  {}

  lemma TriangleStep(d: int, k: int)
    ensures d * ((k - 1) * (k - 2)) + 2 * (d * (k - 1)) == d * (k * (k - 1))
  {
    assert (k - 1) * (k - 2) + 2 * (k - 1) == k * (k - 1);
  }

  lemma WrapLowers(x: nat)
    ensures Wrap(x) <= x && (Wrap(x) == x <==> x <= MAX_INT64)
  {
    if x > MAX_INT64 {
      assert (x + MAX_INT64 + 1) % (2 * (MAX_INT64 + 1)) < x + MAX_INT64 + 1;
    }
  }

  /** The waits requested up to attempt k total at most delay * k * (k - 1) / 2, and exactly that if and
      only if the last of them, delay * (k - 1), fits the duration type. */
  lemma {:induction false} BackoffTotal(delay: nat, k: nat)
    requires k >= 1
    ensures |Backoff(delay, k)| == k - 1
    ensures 2 * Sum(Backoff(delay, k)) <= delay * (k * (k - 1))
    ensures 2 * Sum(Backoff(delay, k)) == delay * (k * (k - 1)) <==> delay * (k - 1) <= MAX_INT64
  {
    if k > 1 {
      BackoffTotal(delay, k - 1);
      ProductOrder(delay, k - 2, k - 1);
      WrapLowers(delay * (k - 1));
      TriangleStep(delay, k);
      SumSnoc(Backoff(delay, k - 1), Wrap(delay * (k - 1)));
    }
  }

  lemma SumSnoc(xs: seq<int>, x: int)
    ensures Sum(xs + [x]) == Sum(xs) + x
  {
    assert (xs + [x])[..|xs|] == xs;
  }

  /** Over a whole delivery with n retries the total is at most delay * n * (n + 1) / 2. */
  lemma BackoffBounded(delay: nat, n: nat, k: nat)
    requires 1 <= k <= n + 1
    ensures 2 * Sum(Backoff(delay, k)) <= delay * (n * (n + 1))
  {
    BackoffTotal(delay, k);
    ProductOrder(k, k - 1, n);
    ProductOrder(n, k, n + 1);
    ProductOrder(delay, k * (k - 1), n * (n + 1));
  }

  /** One retry too many for the delay and the duration wraps below zero: no wait at all. */
  lemma BackoffWraps()
    ensures Backoff(MAX_INT64, 3) == [MAX_INT64, -2]
  {
    assert Backoff(MAX_INT64, 1) == [];
    assert Backoff(MAX_INT64, 2) == [] + [Wrap(MAX_INT64 * 1)];
    assert Wrap(MAX_INT64 * 2) == -2;
  }
}
