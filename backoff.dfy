/** A table-driven backoff policy with bounded jitter. The random draw of
    `rand.Intn` is a parameter; durations are in nanoseconds, as Go's
    `time.Duration` is. */
module Backoff {
  import opened Wrappers
  import opened Autoscale

  /** Nanoseconds in a millisecond. */
  const Millisecond: int := 1_000_000

  datatype Policy = Policy(millis: seq<int>)

  /** The default policy's wait cycles, in milliseconds. */
  const DefaultPolicy: Policy := Policy([0, 10, 10, 100, 100, 500, 500, 3000, 300, 5000, 10000])

  /** `millis/2 + rand.Intn(millis)`, with the draw `r` supplied; `rand.Intn`
      panics unless its bound is positive, so `millis` must not be negative. */
  function Jitter(millis: int, r: int): (j: int)
    requires millis >= 0
    requires millis > 0 ==> 0 <= r < millis
    ensures millis == 0 ==> j == 0
    ensures millis > 0 ==> millis / 2 <= j < millis / 2 + millis
  {
    if millis == 0 then 0 else millis / 2 + r
  }

  /** The wait before attempt `n`, or an error once the table is exhausted.
      The source indexes the table directly, so a negative `n` would panic;
      the attempt number is therefore a `nat`. */
  function Duration(p: Policy, n: nat, r: int): (d: Result<int, Error>)
    requires n < |p.millis| ==> p.millis[n] >= 0
    requires n < |p.millis| && p.millis[n] > 0 ==> 0 <= r < p.millis[n]
    ensures d.Failure? <==> n >= |p.millis|
    ensures d.Failure? ==> d.error == Failed("backoff policy exausted")
    ensures d.Success? ==> d.value >= 0
    ensures d.Success? ==> d.value == Jitter(p.millis[n], r) * Millisecond
    ensures d.Success? && p.millis[n] > 0 ==>
              (p.millis[n] / 2) * Millisecond <= d.value < (p.millis[n] / 2 + p.millis[n]) * Millisecond
  {
    if n >= |p.millis| then Failure(Failed("backoff policy exausted"))
    else Success(Jitter(p.millis[n], r) * Millisecond)
  }

  /** The default table allows attempts 0 through 10 and no more, and never
      waits 15 seconds or longer. */
  lemma DefaultPolicyBounds(n: nat, r: int)
    requires n < 11 && DefaultPolicy.millis[n] > 0 ==> 0 <= r < DefaultPolicy.millis[n]
    ensures |DefaultPolicy.millis| == 11
    ensures Duration(DefaultPolicy, n, r).Success? <==> n <= 10
    ensures Duration(DefaultPolicy, n, r).Success? ==> Duration(DefaultPolicy, n, r).value < 15_000 * Millisecond
  {
    if n <= 10 {
      assert DefaultPolicy.millis[n] <= 10000;
    }
  }
}
