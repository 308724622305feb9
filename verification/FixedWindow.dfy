/** One key of a fixed-window rate limit, and the bound it puts on every sliding window. */
module FixedWindow {
  import opened Text

  datatype Bucket = Bucket(start: int, count: nat)

  /** The bucket after a hit at `t`: a new window when there is none or it has elapsed. */
  function Advance(window: int, b: Option<Bucket>, t: int): Bucket {
    if b.None? || t - b.value.start >= window then Bucket(t, 1) else Bucket(b.value.start, b.value.count + 1)
  }

  function Within(x: int, window: int, t: int): nat {
    if x <= t < x + window then 1 else 0
  }

  function Capped(count: nat, limit: nat): nat {
    if count < limit then count else limit
  }

  /**
   The most hits that can be admitted in an interval one window long. Timestamps are whole, so an interval of length 1
   falls into a single bucket, and a longer one can straddle two.
   */
  function MostWithin(limit: nat, window: int): nat
    requires limit >= 1
  {
    if window >= 2 then 2 * limit - 1 else if window == 1 then limit else 0
  }

  /**
   How many hits in [x, x + window) can have been admitted by time `now` when the key's bucket is `b`.
   A bucket that began before `x` admitted its first hit before `x`: hence the missing one.
   */
  predicate WithinBound(limit: nat, window: int, x: int, b: Option<Bucket>, now: int, admitted: nat) {
    match b
    case None => admitted == 0
    case Some(Bucket(start, count)) =>
      && count >= 1 && start <= now && (now < x ==> admitted == 0)
      && (window <= 0 ==> admitted == 0)
      && (if start < x then admitted <= (if window >= 2 then Capped(count, limit) - 1 else 0)
          else if start < x + window then admitted <= (if window >= 2 then limit - 1 else 0) + Capped(count, limit)
          else admitted <= if window >= 2 then 2 * limit - 1 else limit)
  }

  /** A hit keeps the bound, whether it opens a window or lands in the current one. */
  lemma BoundStep(limit: nat, window: int, x: int, b: Option<Bucket>, now: int, admitted: nat, t: int)
    requires limit >= 1 && WithinBound(limit, window, x, b, now, admitted) && now <= t
    ensures var next := Advance(window, b, t);
            WithinBound(limit, window, x, Some(next), t,
                        admitted + (if next.count <= limit then Within(x, window, t) else 0))
  {
  }

  lemma BoundMeans(limit: nat, window: int, x: int, b: Option<Bucket>, now: int, admitted: nat)
    requires limit >= 1 && WithinBound(limit, window, x, b, now, admitted)
    ensures admitted <= MostWithin(limit, window)
  {
  }
}
