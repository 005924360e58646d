/** The gateway's per-connection limits: calls per window, and calls in flight. */
module RateLimiter {
  import opened Money

  const ONE_SECOND: nat := 1_000_000_000

  /** When the window began, in nanoseconds, and how many calls it has let through. */
  datatype Window = Window(start: nat, count: nat)

  datatype Limits = Limits(maxRequests: nat, window: nat)

  /** A limit of none counts as one, a window of nothing as one second. */
  function Configured(maxRequests: nat, window: nat): (l: Limits)
  {
    Limits(if maxRequests == 0 then 1 else maxRequests, if window == 0 then ONE_SECOND else window)
  }

  predicate Sane(l: Limits)
  {
    l.maxRequests >= 1 && l.window >= 1
  }

  function Elapsed(now: nat, start: nat): (d: nat)
  {
    if now >= start then now - start else 0
  }

  /** The window a call at `now` falls into. */
  function Current(l: Limits, w: Option<Window>, now: nat): (r: Window)
  {
    if w.None? || Elapsed(now, w.value.start) >= l.window then Window(now, 0) else w.value
  }

  /** The window after a call, and whether the call is let through. */
  function Record(l: Limits, w: Option<Window>, now: nat): (r: (Window, bool))
  {
    var current := Current(l, w, now);
    if current.count >= l.maxRequests then (current, false) else (current.(count := current.count + 1), true)
  }

  class ConnectionRateLimiter {
    const limits: Limits
    var windows: map<string, Window>

    constructor (maxRequests: nat, window: nat)
      ensures limits == Configured(maxRequests, window) && Sane(limits) && windows == map[]
    {
      limits := Configured(maxRequests, window);
      windows := map[];
    }

    method CheckAndRecord(connection: string, now: nat) returns (accepted: bool)
      modifies this
      ensures windows == After(limits, old(windows), Call(connection, now))
      ensures accepted == LetThrough(limits, old(windows), Call(connection, now))
    {
      if connection !in windows {
        windows := windows[connection := Window(now, 0)];
      }
      if Elapsed(now, windows[connection].start) >= limits.window {
        windows := windows[connection := Window(now, 0)];
      }
      var entry := windows[connection];
      if entry.count >= limits.maxRequests {
        return false;
      }
      windows := windows[connection := entry.(count := entry.count + 1)];
      return true;
    }
  }

  // ----- runs -----

  datatype Call = Call(connection: string, at: nat)

  function Entry(windows: map<string, Window>, connection: string): (w: Option<Window>)
  {
    if connection in windows then Some(windows[connection]) else None
  }

  function After(l: Limits, windows: map<string, Window>, c: Call): (r: map<string, Window>)
  {
    windows[c.connection := Record(l, Entry(windows, c.connection), c.at).0]
  }

  predicate LetThrough(l: Limits, windows: map<string, Window>, c: Call)
  {
    Record(l, Entry(windows, c.connection), c.at).1
  }

  function Run(l: Limits, calls: seq<Call>): (windows: map<string, Window>)
  {
    if calls == [] then map[] else After(l, Run(l, calls[..|calls| - 1]), calls[|calls| - 1])
  }

  predicate InOrder(calls: seq<Call>)
  {
    forall i, j :: 0 <= i < j < |calls| ==> calls[i].at <= calls[j].at
  }

  /** How many calls of a connection were let through at times from `lo` on, below `hi`. */
  function Passed(l: Limits, calls: seq<Call>, connection: string, lo: nat, hi: nat): (n: nat)
  {
    if calls == [] then 0
    else
      var init, last := calls[..|calls| - 1], calls[|calls| - 1];
      Passed(l, init, connection, lo, hi)
      + if last.connection == connection && lo <= last.at < hi && LetThrough(l, Run(l, init), last) then 1 else 0
  }

  /** The time of a connection's last call. */
  function LastAt(calls: seq<Call>, connection: string): (t: Option<nat>)
  {
    if calls == [] then None
    else if calls[|calls| - 1].connection == connection then Some(calls[|calls| - 1].at)
    else LastAt(calls[..|calls| - 1], connection)
  }

  lemma {:induction false} LastInOrder(calls: seq<Call>, connection: string)
    requires InOrder(calls) && LastAt(calls, connection).Some?
    ensures LastAt(calls, connection).value <= calls[|calls| - 1].at
  {
    if calls[|calls| - 1].connection != connection {
      LastInOrder(calls[..|calls| - 1], connection);
    }
  }

  lemma {:induction false} NonePassed(l: Limits, calls: seq<Call>, connection: string, lo: nat, hi: nat)
    requires InOrder(calls) && (LastAt(calls, connection).None? || LastAt(calls, connection).value < lo)
    ensures Passed(l, calls, connection, lo, hi) == 0
  {
    if calls != [] {
      var init := calls[..|calls| - 1];
      if LastAt(init, connection).Some? {
        LastInOrder(init, connection);
      }
      NonePassed(l, init, connection, lo, hi);
    }
  }

  // ----- one window -----

  /** A window counts exactly the calls it let through, and its connection's last call lies in it. */
  lemma {:induction false} WindowCounts(l: Limits, calls: seq<Call>, connection: string)
    requires Sane(l) && InOrder(calls)
    ensures match Entry(Run(l, calls), connection)
            case None => LastAt(calls, connection).None?
            case Some(w) =>
              && LastAt(calls, connection).Some?
              && w.start <= LastAt(calls, connection).value < w.start + l.window
              && Passed(l, calls, connection, w.start, w.start + l.window) == w.count
              && 1 <= w.count <= l.maxRequests
  {
    if calls != [] {
      var init, last := calls[..|calls| - 1], calls[|calls| - 1];
      WindowCounts(l, init, connection);
      if last.connection == connection {
        if LastAt(init, connection).Some? {
          LastInOrder(init, connection);
        }
        var w := Entry(Run(l, init), connection);
        if w.None? || Elapsed(last.at, w.value.start) >= l.window {
          NonePassed(l, init, connection, last.at, last.at + l.window);
        }
      }
    }
  }

  /** A call is refused if and only if its connection has a window that is still open and has let the
      full number through. */
  lemma {:induction false} RefusedIff(l: Limits, calls: seq<Call>, c: Call)
    requires Sane(l) && InOrder(calls + [c])
    ensures !LetThrough(l, Run(l, calls), c) <==>
              && Entry(Run(l, calls), c.connection).Some?
              && var start := Entry(Run(l, calls), c.connection).value.start;
                 c.at < start + l.window && Passed(l, calls, c.connection, start, start + l.window) == l.maxRequests
  {
    assert calls == (calls + [c])[..|calls|];
    assert InOrder(calls);
    WindowCounts(l, calls, c.connection);
    if LastAt(calls, c.connection).Some? {
      LastInOrder(calls, c.connection);
      assert calls[|calls| - 1] == (calls + [c])[|calls| - 1] && c == (calls + [c])[|calls|];
    }
  }

  /** Whatever is called later, the window a connection had after the first k calls never lets more
      than the limit through. */
  lemma {:induction false} AtMostLimitPerWindow(l: Limits, calls: seq<Call>, k: nat, connection: string, w: Window)
    requires Sane(l) && InOrder(calls) && k <= |calls| && Entry(Run(l, calls[..k]), connection) == Some(w)
    ensures Passed(l, calls, connection, w.start, w.start + l.window) <= l.maxRequests
    ensures Entry(Run(l, calls), connection).Some?
    ensures var now := Entry(Run(l, calls), connection).value; now.start == w.start || now.start >= w.start + l.window
    decreases |calls|
  {
    WindowCounts(l, calls, connection);
    if k == |calls| {
      assert calls[..k] == calls;
    } else {
      var init, last := calls[..|calls| - 1], calls[|calls| - 1];
      assert init[..k] == calls[..k];
      AtMostLimitPerWindow(l, init, k, connection, w);
    }
  }

  // ----- any interval -----

  /** What bounds the calls let through in the interval from `t`, by where the current window began. */
  ghost predicate Bounded(l: Limits, w: Option<Window>, t: nat, passed: nat)
  {
    match w
    case None => passed == 0
    case Some(w) =>
      && 1 <= w.count <= l.maxRequests
      && if w.start < t then passed <= w.count - 1
         else if w.start == t then passed <= w.count
         else if w.start < t + l.window then passed <= l.maxRequests - 1 + w.count
         else passed <= 2 * l.maxRequests - 1
  }

  lemma {:induction false} StepBounded(l: Limits, w: Option<Window>, t: nat, passed: nat, last: nat, now: nat)
    requires Sane(l) && Bounded(l, w, t, passed)
    requires w.Some? ==> w.value.start <= last < w.value.start + l.window && last <= now && (last < t ==> passed == 0)
    ensures var r := Record(l, w, now);
            Bounded(l, Some(r.0), t, passed + if t <= now < t + l.window && r.1 then 1 else 0)
  {
  }

  lemma {:induction false} RunBounded(l: Limits, calls: seq<Call>, connection: string, t: nat)
    requires Sane(l) && InOrder(calls)
    ensures Bounded(l, Entry(Run(l, calls), connection), t, Passed(l, calls, connection, t, t + l.window))
  {
    if calls != [] {
      var init, last := calls[..|calls| - 1], calls[|calls| - 1];
      RunBounded(l, init, connection, t);
      if last.connection == connection {
        var passed := Passed(l, init, connection, t, t + l.window);
        WindowCounts(l, init, connection);
        var before := LastAt(init, connection);
        if before.Some? {
          LastInOrder(init, connection);
          if before.value < t {
            NonePassed(l, init, connection, t, t + l.window);
          }
        }
        StepBounded(l, Entry(Run(l, init), connection), t, passed, if before.Some? then before.value else 0, last.at);
      }
    }
  }

  /** In any interval one window long, wherever it begins, a connection gets at most twice the limit
      through, less one. */
  lemma {:induction false} AtMostTwiceLessOne(l: Limits, calls: seq<Call>, connection: string, t: nat)
    requires Sane(l) && InOrder(calls)
    ensures Passed(l, calls, connection, t, t + l.window) <= 2 * l.maxRequests - 1
  {
    RunBounded(l, calls, connection, t);
  }

  // ----- the bound is reached -----

  function Repeat(before: seq<Call>, c: Call, n: nat): (calls: seq<Call>)
  {
    if n == 0 then before else Repeat(before, c, n - 1) + [c]
  }

  lemma {:induction false} OneMore(l: Limits, calls: seq<Call>, c: Call, lo: nat, hi: nat)
    ensures Run(l, calls + [c]) == After(l, Run(l, calls), c)
    ensures Passed(l, calls + [c], c.connection, lo, hi) == Passed(l, calls, c.connection, lo, hi)
              + if lo <= c.at < hi && LetThrough(l, Run(l, calls), c) then 1 else 0
  {
    assert (calls + [c])[..|calls|] == calls;
  }

  /** Calls into a window with room for them are all let through. */
  lemma {:induction false} RepeatPasses(l: Limits, before: seq<Call>, c: Call, n: nat, lo: nat, hi: nat, w: Window)
    requires Sane(l) && lo <= c.at < hi && w == Current(l, Entry(Run(l, before), c.connection), c.at)
    requires w.start <= c.at && n + w.count <= l.maxRequests
    ensures Passed(l, Repeat(before, c, n), c.connection, lo, hi) == Passed(l, before, c.connection, lo, hi) + n
    ensures Current(l, Entry(Run(l, Repeat(before, c, n)), c.connection), c.at) == w.(count := w.count + n)
    ensures n > 0 ==> Entry(Run(l, Repeat(before, c, n)), c.connection) == Some(w.(count := w.count + n))
  {
    if n > 0 {
      RepeatPasses(l, before, c, n - 1, lo, hi, w);
      OneMore(l, Repeat(before, c, n - 1), c, lo, hi);
    }
  }

  lemma {:induction false} RepeatInOrder(before: seq<Call>, c: Call, n: nat)
    requires InOrder(before) && (before != [] ==> before[|before| - 1].at <= c.at)
    ensures InOrder(Repeat(before, c, n))
    ensures var calls := Repeat(before, c, n); calls != [] ==> calls[|calls| - 1].at <= c.at
  {
    if n > 0 {
      RepeatInOrder(before, c, n - 1);
    }
  }

  lemma {:induction false} OpeningCall(l: Limits, c: Call, lo: nat, hi: nat)
    requires Sane(l) && c.at < lo
    ensures Entry(Run(l, [c]), c.connection) == Some(Window(c.at, 1)) && Passed(l, [c], c.connection, lo, hi) == 0
  {
    OneMore(l, [], c, lo, hi);
    assert [] + [c] == [c];
  }

  /** With a window just opened, the rest of the limit can follow in its last tick. */
  lemma {:induction false} LateCalls(l: Limits, first: seq<Call>, late: Call, hi: nat)
    requires Sane(l) && l.window >= 2 && late.at == l.window - 1 && late.at < hi
    requires Entry(Run(l, first), late.connection) == Some(Window(0, 1))
    requires Passed(l, first, late.connection, late.at, hi) == 0
    ensures Passed(l, Repeat(first, late, l.maxRequests - 1), late.connection, late.at, hi) == l.maxRequests - 1
    ensures Entry(Run(l, Repeat(first, late, l.maxRequests - 1)), late.connection) == Some(Window(0, l.maxRequests))
  {
    RepeatPasses(l, first, late, l.maxRequests - 1, late.at, hi, Window(0, 1));
  }

  lemma {:induction false} NextWindowFills(l: Limits, before: seq<Call>, next: Call, lo: nat, hi: nat)
    requires Sane(l) && next.at == l.window && lo <= next.at < hi
    requires Entry(Run(l, before), next.connection) == Some(Window(0, l.maxRequests))
    requires Passed(l, before, next.connection, lo, hi) == l.maxRequests - 1
    ensures Passed(l, Repeat(before, next, l.maxRequests), next.connection, lo, hi) == 2 * l.maxRequests - 1
  {
    RepeatPasses(l, before, next, l.maxRequests, lo, hi, Window(l.window, 0));
  }

  lemma {:induction false} TwoWindowsFill(l: Limits, first: seq<Call>, late: Call, next: Call, hi: nat)
    requires Sane(l) && l.window >= 2
    requires late.at == l.window - 1 && next == Call(late.connection, l.window) && next.at < hi
    requires Entry(Run(l, first), late.connection) == Some(Window(0, 1))
    requires Passed(l, first, late.connection, late.at, hi) == 0
    ensures Passed(l, Repeat(Repeat(first, late, l.maxRequests - 1), next, l.maxRequests), late.connection, late.at, hi)
         == 2 * l.maxRequests - 1
  {
    LateCalls(l, first, late, hi);
    NextWindowFills(l, Repeat(first, late, l.maxRequests - 1), next, late.at, hi);
  }

  /** One call at the start of a window, the rest of the limit at its end, and a full window after it. */
  function Straddling(l: Limits, connection: string): (calls: seq<Call>)
    requires Sane(l)
  {
    Repeat(Repeat([Call(connection, 0)], Call(connection, l.window - 1), l.maxRequests - 1),
           Call(connection, l.window), l.maxRequests)
  }

  lemma {:induction false} StraddlingInOrder(l: Limits, connection: string)
    requires Sane(l)
    ensures InOrder(Straddling(l, connection))
  {
    RepeatInOrder([Call(connection, 0)], Call(connection, l.window - 1), l.maxRequests - 1);
    RepeatInOrder(Repeat([Call(connection, 0)], Call(connection, l.window - 1), l.maxRequests - 1),
                  Call(connection, l.window), l.maxRequests);
  }

  lemma {:induction false} StraddlingPasses(l: Limits, connection: string)
    requires Sane(l) && l.window >= 2
    ensures Passed(l, Straddling(l, connection), connection, l.window - 1, l.window - 1 + l.window)
         == 2 * l.maxRequests - 1
  {
    var opening, late := Call(connection, 0), Call(connection, l.window - 1);
    OpeningCall(l, opening, late.at, late.at + l.window);
    TwoWindowsFill(l, [opening], late, Call(connection, l.window), late.at + l.window);
  }

  /** Whatever the limit, calls in time order that straddle a window's end reach the bound, unless the
      window is one tick long. */
  lemma {:induction false} BoundIsReached(l: Limits, connection: string) returns (calls: seq<Call>)
    requires Sane(l) && l.window >= 2
    ensures InOrder(calls)
    ensures Passed(l, calls, connection, l.window - 1, l.window - 1 + l.window) == 2 * l.maxRequests - 1
  {
    calls := Straddling(l, connection);
    StraddlingInOrder(l, connection);
    StraddlingPasses(l, connection);
  }

  // ----- calls in flight -----

  datatype Slot = TryAcquire(connection: string) | DropPermit(connection: string)

  /** Counts of calls in flight, and the permits handed out and not yet given back. */
  datatype Flights = Flights(counts: map<string, nat>, permits: multiset<string>)

  function CountOf(counts: map<string, nat>, connection: string): (n: nat)
  {
    if connection in counts then counts[connection] else 0
  }

  function Acquired(counts: map<string, nat>, limit: nat, connection: string): (r: (map<string, nat>, bool))
  {
    var n := CountOf(counts, connection);
    if n >= limit then (counts[connection := n], false) else (counts[connection := n + 1], true)
  }

  function Released(counts: map<string, nat>, connection: string): (r: map<string, nat>)
  {
    if connection !in counts then counts
    else if counts[connection] <= 1 then counts - {connection}
    else counts[connection := counts[connection] - 1]
  }

  /** A permit can only be dropped by its holder, once. */
  function Fly(f: Flights, limit: nat, s: Slot): (r: Flights)
  {
    match s
    case TryAcquire(c) =>
      var (counts, ok) := Acquired(f.counts, limit, c);
      Flights(counts, if ok then f.permits + multiset{c} else f.permits)
    case DropPermit(c) =>
      if c in f.permits then Flights(Released(f.counts, c), f.permits - multiset{c}) else f
  }

  function FlyAll(limit: nat, slots: seq<Slot>): (f: Flights)
  {
    if slots == [] then Flights(map[], multiset{})
    else Fly(FlyAll(limit, slots[..|slots| - 1]), limit, slots[|slots| - 1])
  }

  /** Over every run the count of a connection is the number of its live permits, never above the
      limit, and a connection without permits leaves no entry behind. */
  lemma {:induction false} CountsArePermits(limit: nat, slots: seq<Slot>, connection: string)
    requires limit >= 1
    ensures var f := FlyAll(limit, slots);
            && CountOf(f.counts, connection) == f.permits[connection] <= limit
            && (connection in f.counts <==> connection in f.permits)
  {
    if slots != [] {
      CountsArePermits(limit, slots[..|slots| - 1], connection);
      var s := slots[|slots| - 1];
      if s.connection != connection {
        CountsArePermits(limit, slots[..|slots| - 1], s.connection);
      }
    }
  }

  /** After any run a call is taken if and only if its connection has fewer live permits than the limit. */
  lemma {:induction false} TakenIff(limit: nat, slots: seq<Slot>, connection: string)
    requires limit >= 1
    ensures Acquired(FlyAll(limit, slots).counts, limit, connection).1 <==>
              FlyAll(limit, slots).permits[connection] < limit
  {
    CountsArePermits(limit, slots, connection);
  }

  class ConnectionConcurrencyLimiter {
    const limit: nat
    var counts: map<string, nat>

    constructor (perConnection: nat)
      ensures limit == (if perConnection == 0 then 1 else perConnection) && counts == map[]
    {
      limit := if perConnection == 0 then 1 else perConnection;
      counts := map[];
    }

    method Acquire(connection: string) returns (ok: bool)
      modifies this
      ensures (counts, ok) == Acquired(old(counts), limit, connection)
    {
      if connection !in counts {
        counts := counts[connection := 0];
      }
      if counts[connection] >= limit {
        assert counts == old(counts)[connection := CountOf(old(counts), connection)];
        return false;
      }
      counts := counts[connection := counts[connection] + 1];
      assert counts == old(counts)[connection := CountOf(old(counts), connection) + 1];
      return true;
    }

    method Release(connection: string)
      modifies this
      ensures counts == Released(old(counts), connection)
    {
      if connection in counts {
        counts := counts[connection := if counts[connection] == 0 then 0 else counts[connection] - 1];
        if counts[connection] == 0 {
          counts := counts - {connection};
        }
      }
    }
  }
}
