/** The monotonic-clock timers of the send loops: a timer is due when at
    least its interval has passed since it last fired, and firing sets its
    last time to now. */
module Cadence {

  predicate Due(last: real, interval: real, now: real) {
    now - last >= interval
  }

  /** The timer's last-fired time after a check at `now`. */
  function Fire(last: real, interval: real, now: real): real {
    if Due(last, interval, now) then now else last
  }

  /** The timer's last-fired time after checks at each of `nows` in turn,
      starting from `last`. */
  function LastFired(last: real, interval: real, nows: seq<real>): real
    decreases |nows|
  {
    if nows == [] then last
    else Fire(LastFired(last, interval, nows[..|nows| - 1]), interval, nows[|nows| - 1])
  }

  /** The instants at which the timer fires over checks at `nows`. */
  function FireTimes(last: real, interval: real, nows: seq<real>): seq<real>
    decreases |nows|
  {
    if nows == [] then []
    else
      var before := nows[..|nows| - 1];
      var now := nows[|nows| - 1];
      FireTimes(last, interval, before)
        + (if Due(LastFired(last, interval, before), interval, now) then [now] else [])
  }

  /** Checks at `nows[..i + 1]` extend the checks at `nows[..i]` by one. */
  lemma PrefixStep(last: real, interval: real, nows: seq<real>, i: nat)
    requires i < |nows|
    ensures LastFired(last, interval, nows[..i + 1]) == Fire(LastFired(last, interval, nows[..i]), interval, nows[i])
    ensures FireTimes(last, interval, nows[..i + 1]) == FireTimes(last, interval, nows[..i])
      + (if Due(LastFired(last, interval, nows[..i]), interval, nows[i]) then [nows[i]] else [])
  {
    assert nows[..i + 1][..i] == nows[..i];
  }

  /** The last firing is the timer's current last-fired time. */
  lemma {:induction false} LastFiringIsCurrent(last: real, interval: real, nows: seq<real>)
    ensures var f := FireTimes(last, interval, nows);
      |f| > 0 ==> f[|f| - 1] == LastFired(last, interval, nows)
    ensures FireTimes(last, interval, nows) == [] ==> LastFired(last, interval, nows) == last
    decreases |nows|
  {
    if nows != [] {
      LastFiringIsCurrent(last, interval, nows[..|nows| - 1]);
    }
  }

  /** Successive firing times are at least `interval` apart, the first one
      at least `interval` after `last`. */
  ghost predicate Spaced(last: real, interval: real, f: seq<real>) {
    && (|f| > 0 ==> f[0] - last >= interval)
    && forall i, j :: 0 <= i && j == i + 1 && j < |f| ==> f[j] - f[i] >= interval
  }

  /** The rate limit a timer enforces: over any run of checks, every firing
      is at least one interval after the previous one (the first at least
      one interval after the starting time). */
  lemma {:induction false} FireTimesSpaced(last: real, interval: real, nows: seq<real>)
    ensures Spaced(last, interval, FireTimes(last, interval, nows))
    decreases |nows|
  {
    if nows != [] {
      var before := nows[..|nows| - 1];
      var now := nows[|nows| - 1];
      var g := FireTimes(last, interval, before);
      FireTimesSpaced(last, interval, before);
      LastFiringIsCurrent(last, interval, before);
      var f := FireTimes(last, interval, nows);
      if Due(LastFired(last, interval, before), interval, now) {
        assert f == g + [now];
        forall i, j | 0 <= i && j == i + 1 && j < |f|
          ensures f[j] - f[i] >= interval
        {
          if j < |g| {
            assert f[j] == g[j] && f[i] == g[i];
          }
        }
      } else {
        assert f == g;
      }
    }
  }
}
