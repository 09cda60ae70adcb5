/** The per-client fixed-window limiter. */
module RateLimits {
  import opened Tables

  datatype Entry = Entry(start: Time, count: nat)

  datatype Verdict = Verdict(entry: Entry, allowed: bool)

  function WindowAt(entry: Option<Entry>, window: nat, now: Time): Entry {
    if entry.None? || now - entry.value.start >= window then Entry(now, 0) else entry.value
  }

  function Judge(entry: Option<Entry>, limit: nat, window: nat, now: Time): Verdict {
    var e := WindowAt(entry, window, now);
    if e.count >= limit then Verdict(e, false) else Verdict(e.(count := e.count + 1), true)
  }

  // ----- the calls of one client ------------------------------------------

  datatype Call = Call(at: Time, allowed: bool)

  /** The entry a client's calls leave behind, oldest call first. */
  function Replay(calls: seq<Call>, limit: nat, window: nat): Option<Entry> {
    if calls == [] then None
    else Some(Judge(Replay(calls[..|calls| - 1], limit, window), limit, window, calls[|calls| - 1].at).entry)
  }

  /** Each verdict is the limiter's, and the clock did not step back. */
  ghost predicate Faithful(calls: seq<Call>, limit: nat, window: nat) {
    calls != [] ==>
      var before, last := calls[..|calls| - 1], calls[|calls| - 1];
      && Faithful(before, limit, window)
      && last.allowed == Judge(Replay(before, limit, window), limit, window, last.at).allowed
  }

  ghost predicate Monotone(calls: seq<Call>) {
    forall j, k | 0 <= j < k < |calls| :: calls[j].at <= calls[k].at
  }

  /** Calls let through at a time in the closed interval. */
  function Allowed(calls: seq<Call>, from: Time, to: Time): nat {
    if calls == [] then 0
    else
      var last := calls[|calls| - 1];
      Allowed(calls[..|calls| - 1], from, to) + if last.allowed && from <= last.at <= to then 1 else 0
  }

  lemma {:induction false} AllowedIsMonotone(calls: seq<Call>, from: Time, to: Time, from': Time, to': Time)
    requires forall k | 0 <= k < |calls| && from <= calls[k].at <= to :: from' <= calls[k].at <= to'
    ensures Allowed(calls, from, to) <= Allowed(calls, from', to')
  {
    if calls != [] {
      AllowedIsMonotone(calls[..|calls| - 1], from, to, from', to');
    }
  }

  lemma {:induction false} AllowedSplits(calls: seq<Call>, from: Time, middle: Time, to: Time)
    requires from <= middle <= to + 1
    ensures Allowed(calls, from, to) == Allowed(calls, from, middle - 1) + Allowed(calls, middle, to)
  {
    if calls != [] {
      AllowedSplits(calls[..|calls| - 1], from, middle, to);
    }
  }

  /** The entry counts what was let through since its window began; the window before it had its own limit. */
  ghost predicate Counted(calls: seq<Call>, limit: nat, window: nat) {
    calls != [] ==>
      var e, last := Replay(calls, limit, window).value, calls[|calls| - 1].at;
      && e.start <= last < e.start + window
      && e.count <= limit && Allowed(calls, e.start, last) == e.count
      && Allowed(calls, e.start - window, e.start - 1) <= limit
  }

  lemma {:induction false} CountedAlways(calls: seq<Call>, limit: nat, window: nat)
    requires limit > 0 && window > 0 && Faithful(calls, limit, window) && Monotone(calls)
    ensures Counted(calls, limit, window)
  {
    if calls != [] {
      var before, last := calls[..|calls| - 1], calls[|calls| - 1];
      CountedAlways(before, limit, window);
      if before != [] {
        var e, previous := Replay(before, limit, window).value, before[|before| - 1].at;
        assert previous <= last.at;
        AllowedIsMonotone(before, e.start, last.at, e.start, previous);
        AllowedIsMonotone(before, e.start, previous, e.start, last.at);
        if last.at - e.start >= window {
          AllowedIsMonotone(before, last.at - window, last.at - 1, e.start, previous);
          NoneAtOrAfter(before, last.at);
        }
      }
    }
  }

  /** A window starts after every call of the one before it. */
  lemma {:induction false} NoneAtOrAfter(calls: seq<Call>, now: Time)
    requires forall k | 0 <= k < |calls| :: calls[k].at < now
    ensures Allowed(calls, now, now) == 0
  {
    if calls != [] { NoneAtOrAfter(calls[..|calls| - 1], now); }
  }

  /** In any closed interval of one window length a client is let through at most twice the limit. */
  lemma {:induction false} TwiceTheLimit(calls: seq<Call>, limit: nat, window: nat, from: Time)
    requires limit > 0 && window > 0 && Faithful(calls, limit, window) && Monotone(calls)
    ensures Allowed(calls, from, from + window) <= 2 * limit
  {
    if calls != [] {
      var before, last := calls[..|calls| - 1], calls[|calls| - 1];
      TwiceTheLimit(before, limit, window, from);
      CountedAlways(calls, limit, window);
      var e := Replay(calls, limit, window).value;
      if from <= last.at <= from + window {
        if from >= e.start {
          AllowedIsMonotone(calls, from, from + window, e.start, last.at);
        } else {
          AllowedSplits(calls, from, e.start, from + window);
          AllowedIsMonotone(calls, from, e.start - 1, e.start - window, e.start - 1);
          AllowedIsMonotone(calls, e.start, from + window, e.start, last.at);
        }
      }
    }
  }

  /** A call is refused only when the full limit was let through less than one window ago. */
  lemma RefusedOnlyAtTheLimit(calls: seq<Call>, limit: nat, window: nat, now: Time)
    requires limit > 0 && window > 0 && Faithful(calls, limit, window) && Monotone(calls)
    requires forall k | 0 <= k < |calls| :: calls[k].at <= now
    requires !Judge(Replay(calls, limit, window), limit, window, now).allowed
    ensures Allowed(calls, now - window + 1, now) >= limit
  {
    CountedAlways(calls, limit, window);
    var e, last := Replay(calls, limit, window).value, calls[|calls| - 1].at;
    AllowedIsMonotone(calls, e.start, last, now - window + 1, now);
  }

  lemma NoCalls(limit: nat, window: nat)
    ensures Replay([], limit, window) == None && Faithful([], limit, window)
    ensures forall from, to :: Allowed([], from, to) == 0
  {}

  lemma CallAdded(calls: seq<Call>, limit: nat, window: nat, c: Call)
    requires Faithful(calls, limit, window)
        && c.allowed == Judge(Replay(calls, limit, window), limit, window, c.at).allowed
    ensures Faithful(calls + [c], limit, window)
    ensures Replay(calls + [c], limit, window) == Some(Judge(Replay(calls, limit, window), limit, window, c.at).entry)
    ensures forall from, to ::
      Allowed(calls + [c], from, to) == Allowed(calls, from, to) + if c.allowed && from <= c.at <= to then 1 else 0
  {
    assert (calls + [c])[..|calls|] == calls;
  }

  /** `n` more calls at the same moment, all let through while the window still has room for them. */
  lemma {:induction false} Burst(calls: seq<Call>, limit: nat, window: nat, at: Time, n: nat) returns (more: seq<Call>)
    requires window > 0 && Faithful(calls, limit, window) && Monotone(calls)
        && (calls != [] ==> calls[|calls| - 1].at <= at)
    requires n > 0 && WindowAt(Replay(calls, limit, window), window, at).count + n <= limit
    ensures Faithful(more, limit, window) && Monotone(more) && more != [] && more[|more| - 1].at == at
    ensures Replay(more, limit, window)
         == Some(WindowAt(Replay(calls, limit, window), window,
             at).(count := WindowAt(Replay(calls, limit, window), window, at).count + n))
    ensures forall from, to | from <= at <= to :: Allowed(more, from, to) == Allowed(calls, from, to) + n
  {
    hide Replay, Faithful, Allowed;
    if n == 1 {
      CallAdded(calls, limit, window, Call(at, true));
      more := calls + [Call(at, true)];
    } else {
      var rest := Burst(calls, limit, window, at, n - 1);
      CallAdded(rest, limit, window, Call(at, true));
      more := rest + [Call(at, true)];
      assert WindowAt(Replay(rest, limit, window), window, at) == Replay(rest, limit, window).value;
    }
  }

  /** The bound is tight for every limit and window: bursts on both sides of a window boundary. */
  lemma TwiceIsReached(limit: nat, window: nat) returns (calls: seq<Call>)
    requires limit > 0 && window > 0
    ensures Faithful(calls, limit, window) && Monotone(calls) && Allowed(calls, 0, window) == 2 * limit
  {
    hide Faithful, Allowed, Replay;
    NoCalls(limit, window);
    var first := Burst([], limit, window, 0, limit);
    calls := Burst(first, limit, window, window, limit);
  }

  function KeyOf(ip: string): string { if ip == "" then "unknown" else ip }

  /** Two clients share an entry exactly if their addresses are the same, or one is blank and the other reads
      "unknown". */
  lemma ClientsAreApart(a: string, b: string)
    ensures KeyOf(a) == KeyOf(b) <==> a == b || (a == "" && b == "unknown") || (a == "unknown" && b == "")
  {}

  // ----- the limiter ------------------------------------------------------

  class FixedWindowLimiter {
    const limit: nat
    const window: nat
    var byIP: map<string, Entry>
    ghost var calls: map<string, seq<Call>>

    ghost predicate Valid()
      reads this
    {
      && limit > 0 && window > 0 && calls.Keys == byIP.Keys
      && forall key | key in byIP ::
        Some(byIP[key]) == Replay(calls[key], limit, window) && Faithful(calls[key], limit, window)
    }

    ghost function CallsOf(key: string): seq<Call>
      reads this
    {
      if key in calls then calls[key] else []
    }

    constructor (limit: int, window: int)
      ensures Valid() && byIP == map[]
      ensures this.limit == (if limit <= 0 then 1 else limit) && this.window == (if window <= 0 then 60 else window)
    {
      this.limit := if limit <= 0 then 1 else limit;
      this.window := if window <= 0 then 60 else window;
      byIP, calls := map[], map[];
    }

    /** A blank address shares one entry with all other blank ones. */
    method Allow(ip: string, now: Time) returns (allowed: bool)
      requires Valid()
      modifies this
      ensures Valid()
      ensures var key := KeyOf(ip);
        && allowed == Judge(Replay(old(CallsOf(key)), limit, window), limit, window, now).allowed
        && CallsOf(key) == old(CallsOf(key)) + [Call(now, allowed)]
        && forall other | other != key ::
          CallsOf(other) == old(CallsOf(other)) && (other in byIP <==> other in old(byIP))
      ensures forall other | other != ip && !({ip, other} <= {"", "unknown"}) ::
        CallsOf(KeyOf(other)) == old(CallsOf(KeyOf(other)))
    {
      hide KeyOf, Replay, Faithful;
      var key := KeyOf(ip);
      var entry := if key in byIP then byIP[key] else Entry(now, 0);
      if now - entry.start >= window {
        entry := Entry(now, 0);
      }
      allowed := entry.count < limit;
      if allowed {
        entry := entry.(count := entry.count + 1);
      }
      forall other { ClientsAreApart(ip, other); }
      NoCalls(limit, window);
      CallAdded(CallsOf(key), limit, window, Call(now, allowed));
      byIP, calls := byIP[key := entry], calls[key := CallsOf(key) + [Call(now, allowed)]];
    }
  }
}
