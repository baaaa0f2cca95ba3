/** The fixed-window limiter (`server/middleware/ratelimit.go`).  Times are milliseconds. */
module RateLimit {
  import opened Base

  datatype Window = Window(start: int, count: nat)

  type Counts = map<string, Window>

  datatype Call = Call(key: string, now: int)

  /** `tidy`: clean up when more than this many keys are kept; `None` never cleans. */
  datatype Limits = Limits(limit: int, window: int, tidy: Option<nat>)

  const TIDY_ABOVE := 10000

  function Fresh(counts: Counts, cutoff: int): Counts {
    map k | k in counts && counts[k].start >= cutoff :: counts[k]
  }

  function Tidied(l: Limits, counts: Counts, now: int): Counts {
    if l.tidy.Some? && |counts| > l.tidy.value then Fresh(counts, now - l.window) else counts
  }

  function Count(l: Limits, counts: Counts, c: Call): (Counts, bool) {
    if c.key !in counts || c.now - counts[c.key].start >= l.window then (counts[c.key := Window(c.now, 1)], true)
    else
      var w := counts[c.key];
      (counts[c.key := Window(w.start, w.count + 1)], w.count + 1 <= l.limit)
  }

  function Decide(l: Limits, counts: Counts, c: Call): (Counts, bool) {
    if l.limit <= 0 then (counts, true) else Count(l, Tidied(l, counts, c.now), c)
  }

  function State(l: Limits, calls: seq<Call>): Counts {
    if calls == [] then map[] else Decide(l, State(l, calls[..|calls| - 1]), calls[|calls| - 1]).0
  }

  function Answer(l: Limits, calls: seq<Call>, i: nat): bool
    requires i < |calls|
  {
    Decide(l, State(l, calls[..i]), calls[i]).1
  }

  predicate ClockForward(calls: seq<Call>) {
    forall i, j :: 0 <= i < j < |calls| ==> calls[i].now <= calls[j].now
  }

  // ---- cleaning up changes no answer ----

  /** The tidied table misses only keys whose window is over. */
  ghost predicate Covers(l: Limits, full: Counts, tidy: Counts, now: int) {
    && (forall k :: k in tidy ==> k in full && tidy[k] == full[k])
    && forall k :: k in full && k !in tidy ==> now - full[k].start >= l.window
  }

  lemma {:induction false} TidyCovers(l: Limits, calls: seq<Call>, now: int)
    requires ClockForward(calls) && forall i :: 0 <= i < |calls| ==> calls[i].now <= now
    ensures Covers(l, State(l.(tidy := None), calls), State(l, calls), now)
  {
    if calls != [] {
      var n := |calls| - 1;
      TidyCovers(l, calls[..n], calls[n].now);
    }
  }

  /** Whatever the threshold, every answer is that of a limiter that never cleans. */
  lemma TidyingNeverShows(l: Limits, calls: seq<Call>, i: nat)
    requires ClockForward(calls) && i < |calls|
    ensures Answer(l, calls, i) == Answer(l.(tidy := None), calls, i)
  {
    TidyCovers(l, calls[..i], calls[i].now);
  }

  // ---- the bound ----

  /** Calls of the key let through at a time in [from, to). */
  function Passed(l: Limits, calls: seq<Call>, key: string, from: int, to: int): nat {
    if calls == [] then 0
    else
      var n := |calls| - 1;
      Passed(l, calls[..n], key, from, to)
        + if calls[n].key == key && from <= calls[n].now < to && Answer(l, calls, n) then 1 else 0
  }

  function Min(a: int, b: int): int { if a < b then a else b }

  /**
    What the current window says about the calls let through from `t` on: a window begun before
    spent its first call before; one begun inside follows at most one such window.
   */
  ghost predicate Budget(l: Limits, counts: Counts, key: string, t: int, passed: nat) {
    if key !in counts then passed == 0
    else
      var w := counts[key];
      1 <= w.count &&
      if w.start < t then passed <= Min(w.count, l.limit) - 1
      else if w.start < t + l.window then passed <= l.limit - 1 + Min(w.count, l.limit)
      else passed <= 2 * l.limit - 1
  }

  lemma {:induction false} NothingBefore(l: Limits, calls: seq<Call>, key: string, from: int, to: int)
    requires forall i :: 0 <= i < |calls| ==> calls[i].now < from
    ensures Passed(l, calls, key, from, to) == 0
  {
    if calls != [] { NothingBefore(l, calls[..|calls| - 1], key, from, to); }
  }

  lemma {:induction false} StartsBefore(l: Limits, calls: seq<Call>, now: int)
    requires forall i :: 0 <= i < |calls| ==> calls[i].now <= now
    ensures forall k :: k in State(l, calls) ==> State(l, calls)[k].start <= now
  {
    if calls != [] { StartsBefore(l, calls[..|calls| - 1], now); }
  }

  lemma {:induction false} WithinBudget(l: Limits, calls: seq<Call>, key: string, t: int)
    requires l.limit >= 1 && l.tidy.None? && ClockForward(calls)
    ensures Budget(l, State(l, calls), key, t, Passed(l, calls, key, t, t + l.window))
  {
    if calls != [] {
      var n := |calls| - 1;
      WithinBudget(l, calls[..n], key, t);
      StartsBefore(l, calls[..n], calls[n].now);
      if calls[n].now < t { NothingBefore(l, calls[..n], key, t, t + l.window); }
    }
  }

  lemma {:induction false} SamePassed(l: Limits, calls: seq<Call>, key: string, from: int, to: int)
    requires ClockForward(calls)
    ensures Passed(l, calls, key, from, to) == Passed(l.(tidy := None), calls, key, from, to)
  {
    if calls != [] {
      TidyingNeverShows(l, calls, |calls| - 1);
      SamePassed(l, calls[..|calls| - 1], key, from, to);
    }
  }

  /** In no span of one window's length do more than 2 * limit - 1 calls of a key pass. */
  lemma AtMostTwiceTheLimit(l: Limits, calls: seq<Call>, key: string, t: int)
    requires l.limit >= 1 && ClockForward(calls)
    ensures Passed(l, calls, key, t, t + l.window) <= 2 * l.limit - 1
  {
    SamePassed(l, calls, key, t, t + l.window);
    WithinBudget(l.(tidy := None), calls, key, t);
  }

  // ---- nobody is refused early ----

  lemma {:induction false} WindowSpent(l: Limits, calls: seq<Call>, key: string, to: int)
    requires l.limit >= 1 && l.tidy.None? && ClockForward(calls) && forall i :: 0 <= i < |calls| ==> calls[i].now < to
    ensures var counts := State(l, calls);
      key in counts ==> Passed(l, calls, key, counts[key].start, to) >= Min(counts[key].count, l.limit)
  {
    if calls != [] {
      var n := |calls| - 1;
      WindowSpent(l, calls[..n], key, to);
      StartsBefore(l, calls[..n], calls[n].now);
    }
  }

  /** A refused call comes after `limit` calls of its key that passed less than a window ago. */
  lemma RefusedAtTheLimit(l: Limits, calls: seq<Call>, i: nat) returns (from: int)
    requires ClockForward(calls) && i < |calls| && !Answer(l, calls, i)
    ensures l.limit >= 1 && from <= calls[i].now < from + l.window
    ensures Passed(l, calls[..i], calls[i].key, from, calls[i].now + 1) >= l.limit
  {
    var free, prior := l.(tidy := None), calls[..i];
    TidyingNeverShows(l, calls, i);
    WindowSpent(free, prior, calls[i].key, calls[i].now + 1);
    StartsBefore(free, prior, calls[i].now);
    from := State(free, prior)[calls[i].key].start;
    SamePassed(l, prior, calls[i].key, from, calls[i].now + 1);
  }

  // ---- the bound is reached ----

  /** The call made n more times. */
  function Again(calls: seq<Call>, c: Call, n: nat): seq<Call> {
    if n == 0 then calls else Again(calls, c, n - 1) + [c]
  }

  /** The key's window and how many of its calls passed in the span. */
  ghost predicate Stands(l: Limits, calls: seq<Call>, key: string, w: Window, from: int, to: int, passed: int) {
    Get(State(l, calls), key) == Some(w) && Passed(l, calls, key, from, to) == passed
  }

  /** One more call in an open window passes while the limit lasts. */
  lemma OneMore(l: Limits, calls: seq<Call>, c: Call, w: Window, from: int, to: int, passed: int)
    requires l.limit >= 1 && l.tidy.None? && from <= c.now < to
    requires Stands(l, calls, c.key, w, from, to, passed) && c.now - w.start < l.window && w.count + 1 <= l.limit
    ensures Stands(l, calls + [c], c.key, Window(w.start, w.count + 1), from, to, passed + 1)
  {
    assert (calls + [c])[..|calls|] == calls;
  }

  lemma {:induction false} Burst(l: Limits, calls: seq<Call>, c: Call, n: nat, w: Window, from: int, to: int, passed: int)
    requires l.limit >= 1 && l.tidy.None? && from <= c.now < to
    requires Stands(l, calls, c.key, w, from, to, passed) && c.now - w.start < l.window && w.count + n <= l.limit
    ensures Stands(l, Again(calls, c, n), c.key, Window(w.start, w.count + n), from, to, passed + n)
  {
    if n > 0 {
      Burst(l, calls, c, n - 1, w, from, to, passed);
      var prior := Again(calls, c, n - 1);
      OneMore(l, prior, c, Window(w.start, w.count + n - 1), from, to, passed + n - 1);
    }
  }

  /** A new window lets its first call through. */
  lemma Opening(l: Limits, calls: seq<Call>, c: Call, from: int, to: int)
    requires l.limit >= 1 && l.tidy.None?
    requires c.key in State(l, calls) ==> c.now - State(l, calls)[c.key].start >= l.window
    ensures Stands(l, calls + [c], c.key, Window(c.now, 1), from, to,
                   Passed(l, calls, c.key, from, to) + if from <= c.now < to then 1 else 0)
  {
    assert (calls + [c])[..|calls|] == calls;
  }

  /** One call opens a window, limit - 1 come at its end and limit at the start of the next. */
  function Rush(limit: int, window: int): seq<Call>
    requires limit >= 1
  {
    var full := Again([Call("k", 0)], Call("k", window - 1), limit - 1);
    Again(full + [Call("k", window)], Call("k", window), limit - 1)
  }

  lemma {:induction false} AgainForward(calls: seq<Call>, c: Call, n: nat)
    requires ClockForward(calls) && forall i :: 0 <= i < |calls| ==> calls[i].now <= c.now
    ensures ClockForward(Again(calls, c, n)) && forall i :: 0 <= i < |Again(calls, c, n)| ==> Again(calls, c, n)[i].now <= c.now
  {
    if n > 0 { AgainForward(calls, c, n - 1); }
  }

  lemma RushForward(limit: int, window: int)
    requires limit >= 1 && window >= 2
    ensures ClockForward(Rush(limit, window))
  {
    AgainForward([Call("k", 0)], Call("k", window - 1), limit - 1);
    var full := Again([Call("k", 0)], Call("k", window - 1), limit - 1);
    AgainForward(full + [Call("k", window)], Call("k", window), limit - 1);
  }

  /** The first half: the window opened at 0 is full, and all but its first call came late. */
  lemma FirstHalf(l: Limits, calls: seq<Call>)
    requires l.limit >= 1 && l.tidy.None? && l.window >= 2 && calls == [Call("k", 0)]
    ensures Stands(l, Again(calls, Call("k", l.window - 1), l.limit - 1), "k", Window(0, l.limit),
                   l.window - 1, 2 * l.window - 1, l.limit - 1)
  {
    assert [] + calls == calls;
    Opening(l, [], Call("k", 0), l.window - 1, 2 * l.window - 1);
    Burst(l, calls, Call("k", l.window - 1), l.limit - 1, Window(0, 1), l.window - 1, 2 * l.window - 1, 0);
  }

  lemma SecondHalf(l: Limits, calls: seq<Call>)
    requires l.limit >= 1 && l.tidy.None? && l.window >= 2
    requires Stands(l, calls, "k", Window(0, l.limit), l.window - 1, 2 * l.window - 1, l.limit - 1)
    ensures Stands(l, Again(calls + [Call("k", l.window)], Call("k", l.window), l.limit - 1), "k",
                   Window(l.window, l.limit), l.window - 1, 2 * l.window - 1, 2 * l.limit - 1)
  {
    var c, from, to := Call("k", l.window), l.window - 1, 2 * l.window - 1;
    Opening(l, calls, c, from, to);
    Burst(l, calls + [c], c, l.limit - 1, Window(l.window, 1), from, to, l.limit);
  }

  lemma RushPasses(l: Limits)
    requires l.limit >= 1 && l.tidy.None? && l.window >= 2
    ensures Passed(l, Rush(l.limit, l.window), "k", l.window - 1, 2 * l.window - 1) == 2 * l.limit - 1
  {
    FirstHalf(l, [Call("k", 0)]);
    SecondHalf(l, Again([Call("k", 0)], Call("k", l.window - 1), l.limit - 1));
  }

  lemma TwiceTheLimitReached(l: Limits)
    requires l.limit >= 1 && l.window >= 2
    ensures ClockForward(Rush(l.limit, l.window))
    ensures Passed(l, Rush(l.limit, l.window), "k", l.window - 1, 2 * l.window - 1) == 2 * l.limit - 1
  {
    RushForward(l.limit, l.window);
    RushPasses(l.(tidy := None));
    SamePassed(l, Rush(l.limit, l.window), "k", l.window - 1, 2 * l.window - 1);
  }

  // ---- the limiter as it runs ----

  class FixedWindowLimiter {
    const limit: int
    const window: int
    var counts: Counts

    ghost function Rules(): Limits { Limits(limit, window, Some(TIDY_ABOVE)) }

    constructor (limit: int, window: int)
      ensures this.limit == limit && this.window == window && counts == map[]
    {
      this.limit, this.window, counts := limit, window, map[];
    }

    method Allow(key: string, now: int) returns (ok: bool)
      modifies this
      ensures (counts, ok) == Decide(Rules(), old(counts), Call(key, now))
    {
      if limit <= 0 { return true; }
      if |counts| > TIDY_ABOVE {
        var cutoff := now - window;
        RemoveBefore(cutoff);
      }
      if key !in counts || now - counts[key].start >= window {
        counts := counts[key := Window(now, 1)];
        return true;
      }
      var e := counts[key].(count := counts[key].count + 1);
      counts := counts[key := e];
      return e.count <= limit;
    }

    method RemoveBefore(cutoff: int)
      modifies this
      ensures counts == Fresh(old(counts), cutoff)
    {
      var rest := counts.Keys;
      while rest != {}
        invariant rest <= old(counts).Keys
        invariant counts == map k | k in old(counts) && (k in rest || old(counts)[k].start >= cutoff) :: old(counts)[k]
        decreases |rest|
      {
        var k :| k in rest;
        if counts[k].start < cutoff { counts := counts - {k}; }
        rest := rest - {k};
      }
    }
  }

  /** The object, called over and over, gives the answers the bound is about. */
  method Serve(l: FixedWindowLimiter, calls: seq<Call>) returns (answers: seq<bool>)
    requires l.counts == map[]
    modifies l
    ensures |answers| == |calls|
    ensures forall i :: 0 <= i < |calls| ==> answers[i] == Answer(Limits(l.limit, l.window, Some(TIDY_ABOVE)), calls, i)
  {
    answers := [];
    var i := 0;
    while i < |calls|
      invariant 0 <= i <= |calls| && |answers| == i
      invariant l.counts == State(l.Rules(), calls[..i])
      invariant forall j :: 0 <= j < i ==> answers[j] == Answer(l.Rules(), calls, j)
    {
      assert calls[..i + 1][..i] == calls[..i];
      var ok := l.Allow(calls[i].key, calls[i].now);
      answers := answers + [ok];
      i := i + 1;
    }
  }
}
