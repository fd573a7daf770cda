/**
  The fixed-window limiter: one counter in Redis for each key and window of the
  clock, set to expire one window after it was created.

  Times are nanoseconds. Allow reads the clock and counts at one moment, and the
  clock does not go back; Redis keeps a counter until it expires. The calls to
  Redis may fail, with or without effect.
*/
module RateLimit {
  import opened Common

  datatype Slot = Slot(key: string, window: nat)

  /** A counter that never got its expiry keeps forever. */
  datatype Counter = Counter(count: nat, expires: Option<int>)

  datatype Answer = Allowed | Denied | Unavailable

  /** One call of Allow: counted says that its increment reached Redis. */
  datatype Request = Request(key: string, at: nat, counted: bool, answer: Answer)

  // ---------------------------------------------------------------------------
  // Histories
  // ---------------------------------------------------------------------------

  function SlotOf(r: Request, window: nat): Slot
    requires window > 0
  {
    Slot(r.key, r.at / window)
  }

  /** The increments a slot got. */
  function Counted(log: seq<Request>, window: nat, slot: Slot): (n: nat)
    requires window > 0
  {
    if log == [] then 0
    else
      var last := log[|log| - 1];
      Counted(log[..|log| - 1], window, slot) + if last.counted && SlotOf(last, window) == slot then 1 else 0
  }

  /** The requests of a key that were allowed between two moments, both included. */
  function AllowedBetween(log: seq<Request>, key: string, from: int, to: int): (n: nat) {
    if log == [] then 0
    else
      var last := log[|log| - 1];
      AllowedBetween(log[..|log| - 1], key, from, to) +
      if last.answer == Allowed && last.key == key && from <= last.at <= to then 1 else 0
  }

  /** A request that was answered was counted, and allowed exactly if it is among the first `limit` of its slot. */
  predicate Fair(log: seq<Request>, limit: nat, window: nat, i: nat)
    requires window > 0 && i < |log|
  {
    log[i].answer != Unavailable ==>
      && log[i].counted
      && (log[i].answer == Allowed <==> Counted(log[..i + 1], window, SlotOf(log[i], window)) <= limit)
  }

  predicate LogOk(log: seq<Request>, limit: nat, window: nat)
    requires window > 0
  {
    forall i :: 0 <= i < |log| ==> Fair(log, limit, window, i)
  }

  lemma LogOkPrefix(log: seq<Request>, limit: nat, window: nat)
    requires window > 0 && log != [] && LogOk(log, limit, window)
    ensures LogOk(log[..|log| - 1], limit, window)
  {
    var rest := log[..|log| - 1];
    forall i | 0 <= i < |rest| ensures Fair(rest, limit, window, i) {
      assert Fair(log, limit, window, i) && rest[..i + 1] == log[..i + 1];
    }
  }

  /** Within one window of the clock at most `limit` requests of a key are allowed. */
  lemma {:induction false} WindowBound(log: seq<Request>, limit: nat, window: nat, key: string, w: nat)
    requires window > 0 && LogOk(log, limit, window)
    ensures AllowedBetween(log, key, w * window, w * window + window - 1) <= Counted(log, window, Slot(key, w))
    ensures AllowedBetween(log, key, w * window, w * window + window - 1) <= limit
  {
    if log != [] {
      var n := |log| - 1;
      LogOkPrefix(log, limit, window);
      WindowBound(log[..n], limit, window, key, w);
      assert Fair(log, limit, window, n) && log[..n + 1] == log;
      InWindow(log[n].at, window, w);
    }
  }

  lemma MulMonotone(a: nat, b: nat, c: nat)
    ensures a <= b ==> a * c <= b * c
  {
    if a <= b { assert b * c == a * c + (b - a) * c; }
  }

  lemma InWindow(at: nat, window: nat, w: nat)
    requires window > 0
    ensures at / window == w <==> w * window <= at <= w * window + window - 1
  {
    var d := at / window;
    assert at == d * window + at % window;
    MulMonotone(d + 1, w, window);
    MulMonotone(w + 1, d, window);
  }

  lemma {:induction false} Split(log: seq<Request>, key: string, from: int, to: int, from': int, mid: int, to': int)
    requires from' <= from && to <= to'
    ensures AllowedBetween(log, key, from, to) <= AllowedBetween(log, key, from', mid - 1) + AllowedBetween(log, key, mid, to')
  {
    if log != [] { Split(log[..|log| - 1], key, from, to, from', mid, to'); }
  }

  /** The sliding bound: any stretch of one window's length, ends included, allows at most twice the limit. */
  lemma SlidingBound(log: seq<Request>, limit: nat, window: nat, key: string, from: nat)
    requires window > 0 && LogOk(log, limit, window)
    ensures AllowedBetween(log, key, from, from + window) <= 2 * limit
  {
    var w := from / window;
    InWindow(from, window, w);
    assert (w + 1) * window == w * window + window;
    Split(log, key, from, from + window, w * window, (w + 1) * window, (w + 1) * window + window - 1);
    WindowBound(log, limit, window, key, w);
    WindowBound(log, limit, window, key, w + 1);
  }

  /** Allowed requests at the end of one window and the start of the next. */
  function Burst(n: nat, limit: nat, window: nat): seq<Request>
    requires window > 0
  {
    seq(n, i requires 0 <= i < n => Request("", if i < limit then window - 1 else window, true, Allowed))
  }

  lemma {:induction false} BurstCounts(n: nat, limit: nat, window: nat)
    requires window > 0 && n <= 2 * limit
    ensures Counted(Burst(n, limit, window), window, Slot("", 0)) == if n <= limit then n else limit
    ensures Counted(Burst(n, limit, window), window, Slot("", 1)) == if n <= limit then 0 else n - limit
    ensures AllowedBetween(Burst(n, limit, window), "", window - 1, window) == n
  {
    if n > 0 {
      BurstCounts(n - 1, limit, window);
      assert Burst(n, limit, window)[..n - 1] == Burst(n - 1, limit, window);
      InWindow(window - 1, window, 0);
      InWindow(window, window, 1);
    }
  }

  /** The bound is tight: twice the limit can pass within two neighbouring nanoseconds. */
  lemma BoundIsTight(limit: nat, window: nat)
    requires window > 0
    ensures LogOk(Burst(2 * limit, limit, window), limit, window)
    ensures AllowedBetween(Burst(2 * limit, limit, window), "", window - 1, window) == 2 * limit
  {
    var log := Burst(2 * limit, limit, window);
    BurstCounts(2 * limit, limit, window);
    forall i | 0 <= i < |log| ensures Fair(log, limit, window, i) {
      BurstFair(i, limit, window);
      assert log[..i + 1] == Burst(i + 1, limit, window);
    }
  }

  lemma BurstFair(i: nat, limit: nat, window: nat)
    requires window > 0 && i < 2 * limit
    ensures var at := if i < limit then window - 1 else window;
            Counted(Burst(i + 1, limit, window), window, Slot("", at / window)) <= limit
  {
    BurstCounts(i + 1, limit, window);
    InWindow(window - 1, window, 0);
    InWindow(window, window, 1);
  }

  lemma WindowsAdvance(at: nat, now: nat, window: nat)
    requires window > 0 && at <= now
    ensures at / window <= now / window
  {
    InWindow(at, window, at / window);
    InWindow(now, window, now / window);
    var a, b := at / window, now / window;
    MulMonotone(b + 1, a, window);
  }

  /** One more request, answered by the count its slot then has. */
  lemma OneMore(log: seq<Request>, r: Request, limit: nat, window: nat)
    requires window > 0 && LogOk(log, limit, window)
    requires r.answer != Unavailable ==>
               r.counted && (r.answer == Allowed <==> Counted(log, window, SlotOf(r, window)) < limit)
    ensures LogOk(log + [r], limit, window)
    ensures forall slot :: Counted(log + [r], window, slot) ==
                           Counted(log, window, slot) + if r.counted && slot == SlotOf(r, window) then 1 else 0
  {
    var longer := log + [r];
    assert longer[..|log|] == log;
    forall i | 0 <= i < |longer| ensures Fair(longer, limit, window, i) {
      assert i < |log| ==> longer[..i + 1] == log[..i + 1] && Fair(log, limit, window, i);
      assert longer[..|longer|] == longer;
    }
  }

  ghost predicate CounterOk(slot: Slot, c: Counter, log: seq<Request>, window: nat)
    requires window > 0
  {
    && c.count == Counted(log, window, slot)
    && (c.expires.Some? ==> (slot.window + 1) * window <= c.expires.value)
  }

  ghost predicate CountersOk(counters: map<Slot, Counter>, log: seq<Request>, window: nat, now: nat)
    requires window > 0
  {
    && (forall slot {:trigger CounterOk(slot, counters[slot], log, window)} :: slot in counters ==> CounterOk(slot, counters[slot], log, window))
    && (forall slot: Slot {:trigger Counted(log, window, slot)} :: slot !in counters && slot.window >= now / window ==> Counted(log, window, slot) == 0)
  }

  /** The counter a request leaves: a new one may get its expiry, an old one keeps what it has. */
  lemma CountersFollow(counters: map<Slot, Counter>, log: seq<Request>, window: nat, r: Request, c: Counter)
    requires window > 0 && CountersOk(counters, log, window, r.at)
    requires r.counted ==> c.count == (if SlotOf(r, window) in counters then counters[SlotOf(r, window)].count else 0) + 1
    requires c.expires == Some(r.at + window) || c.expires == None ||
             (SlotOf(r, window) in counters && c.expires == counters[SlotOf(r, window)].expires)
    requires forall slot :: Counted(log + [r], window, slot) ==
                            Counted(log, window, slot) + if r.counted && slot == SlotOf(r, window) then 1 else 0
    ensures CountersOk(if r.counted then counters[SlotOf(r, window) := c] else counters, log + [r], window, r.at)
  {
    var slot := SlotOf(r, window);
    InWindow(r.at, window, slot.window);
    assert (slot.window + 1) * window <= r.at + window;
    assert slot in counters ==> CounterOk(slot, counters[slot], log, window);
    assert slot !in counters ==> Counted(log, window, slot) == 0;
    var after := if r.counted then counters[slot := c] else counters;
    forall other | other in after ensures CounterOk(other, after[other], log + [r], window) {
      assert other in counters ==> CounterOk(other, counters[other], log, window);
    }
  }

  lemma CurrentCount(counters: map<Slot, Counter>, log: seq<Request>, window: nat, now: nat, slot: Slot)
    requires window > 0 && CountersOk(counters, log, window, now) && slot.window == now / window
    ensures Counted(log, window, slot) == if slot in counters then counters[slot].count else 0
  {
    assert slot in counters ==> CounterOk(slot, counters[slot], log, window);
  }

  /** A request that its slot's count answers keeps the counters and the history as they should be. */
  lemma RequestKeeps(counters: map<Slot, Counter>, log: seq<Request>, limit: nat, window: nat, r: Request, c: Counter)
    requires window > 0 && CountersOk(counters, log, window, r.at) && LogOk(log, limit, window)
    requires c.count == Counted(log, window, SlotOf(r, window)) + 1
    requires c.expires == Some(r.at + window) || c.expires == None ||
             (SlotOf(r, window) in counters && c.expires == counters[SlotOf(r, window)].expires)
    requires r.answer != Unavailable ==> r.counted && (r.answer == Allowed <==> c.count <= limit)
    ensures LogOk(log + [r], limit, window)
    ensures CountersOk(if r.counted then counters[SlotOf(r, window) := c] else counters, log + [r], window, r.at)
  {
    OneMore(log, r, limit, window);
    CurrentCount(counters, log, window, r.at, SlotOf(r, window));
    CountersFollow(counters, log, window, r, c);
  }

  predicate Expired(c: Counter, now: int) { c.expires.Some? && c.expires.value <= now }

  function Kept(counters: map<Slot, Counter>, now: int): map<Slot, Counter> {
    map slot | slot in counters && !Expired(counters[slot], now) :: counters[slot]
  }

  /** A counter that is gone belongs to a window that is over. */
  lemma KeptOk(counters: map<Slot, Counter>, log: seq<Request>, window: nat, now: nat, to: nat)
    requires window > 0 && CountersOk(counters, log, window, now) && now <= to
    ensures CountersOk(Kept(counters, to), log, window, to)
    ensures forall slot :: slot in counters && slot !in Kept(counters, to) ==> slot.window < to / window
  {
    WindowsAdvance(now, to, window);
    forall slot | slot in counters && slot !in Kept(counters, to) ensures slot.window < to / window {
      assert CounterOk(slot, counters[slot], log, window);
      InWindow(to, window, to / window);
      MulMonotone(to / window + 1, slot.window + 1, window);
    }
  }

  // ---------------------------------------------------------------------------
  // The limiter
  // ---------------------------------------------------------------------------

  class RateLimiter {
    const limit: nat
    const window: nat
    var counters: map<Slot, Counter>
    var now: nat
    ghost var log: seq<Request>

    /** The counter of the current window counts every increment, and none is gone before its window is over. */
    ghost predicate Valid()
      reads this
    {
      && window > 0
      && (forall i :: 0 <= i < |log| ==> log[i].at <= now)
      && CountersOk(counters, log, window, now)
      && LogOk(log, limit, window)
    }

    constructor (limit: nat, window: nat)
      requires window > 0
      ensures Valid() && log == [] && this.limit == limit && this.window == window
    {
      this.limit, this.window := limit, window;
      counters, now, log := map[], 0, [];
    }

    /** Time passes, and Redis removes what expired. */
    method Advance(to: nat)
      requires Valid() && now <= to
      modifies this`now, this`counters
      ensures Valid() && now == to && counters == Kept(old(counters), to)
      ensures forall slot :: slot in old(counters) && slot !in counters ==> slot.window < to / window
    {
      KeptOk(counters, log, window, now, to);
      counters := Kept(counters, to);
      now := to;
    }

    /**
      One request, with the answers to its increment and to the expiry that follows a
      first one. It is unanswered exactly if a call reported an error; otherwise it is
      allowed exactly if it is among the first `limit` of its key and window, and the
      counter it started expires one window from now.
    */
    method Allow(key: string, increment: Outcome, expire: Outcome) returns (answer: Answer)
      requires Valid()
      modifies this`counters, this`log
      ensures Valid()
      ensures log == old(log) + [Request(key, now, increment != Failed, answer)]
      ensures var slot := Slot(key, now / window);
              var earlier := Counted(old(log), window, slot);
              && (answer == Unavailable <==> increment != Done || (earlier == 0 && expire != Done))
              && (answer == Allowed <==> answer != Unavailable && earlier < limit)
              && counters == if increment == Failed then old(counters)
                             else old(counters)[slot := Counter(earlier + 1,
                                                                if increment == Done && earlier == 0 && expire != Failed then Some(now + window)
                                                                else if slot in old(counters) then old(counters)[slot].expires else None)]
    {
      var slot := Slot(key, now / window);
      CurrentCount(counters, log, window, now, slot);
      var count := (if slot in counters then counters[slot].count else 0) + 1;
      var expires := if slot in counters then counters[slot].expires else None;
      if increment == Done && count == 1 && expire != Failed { expires := Some(now + window); }
      answer := if increment != Done || (count == 1 && expire != Done) then Unavailable
                else if count <= limit then Allowed else Denied;
      ghost var r := Request(key, now, increment != Failed, answer);
      RequestKeeps(counters, log, limit, window, r, Counter(count, expires));
      if increment != Failed { counters := counters[slot := Counter(count, expires)]; }
      log := log + [r];
    }
  }
}
