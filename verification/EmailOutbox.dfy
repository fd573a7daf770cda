/**
  The email outbox: a relay attempts the emails that are due, earliest first and at
  most a hundred a pass, and puts a failed one back with a growing delay.

  Times are whole seconds. An email is named by its place in the table, which only
  grows. A row remembers when it was handed to the mail server, and how many of
  these attempts were not recorded because the database failed afterwards.
*/
module EmailOutbox {
  import opened Common

  const MAX_ATTEMPTS := 32
  const MIN_DELAY := 10
  const MAX_DELAY := 3600
  const BATCH := 100
  const ONE_DAY := 86400

  /** One time the email was handed to the mail server, and what that answered. */
  datatype Send = Send(at: int, o: Outcome)

  datatype Row = Row(attempts: nat, nextAt: int, sent: bool, sends: seq<Send>, unrecorded: nat)

  // ---------------------------------------------------------------------------
  // Delays
  // ---------------------------------------------------------------------------

  function Pow2(n: nat): (r: nat)
    ensures r >= 1
  {
    if n == 0 then 1 else 2 * Pow2(n - 1)
  }

  /** Ten seconds doubled per failure, at most an hour. */
  function DelayAfter(failed: nat): nat {
    if MIN_DELAY * Pow2(failed) < MAX_DELAY then MIN_DELAY * Pow2(failed) else MAX_DELAY
  }

  lemma {:induction false} Pow2Monotone(m: nat, n: nat)
    requires m <= n
    ensures Pow2(m) <= Pow2(n)
  {
    if m < n { Pow2Monotone(m, n - 1); }
  }

  method RetryDelay(failed: nat) returns (d: nat)
    ensures d == DelayAfter(failed) == if failed < 9 then 10 * Pow2(failed) else 3600
  {
    d := MIN_DELAY;
    var i := 0;
    while i < failed && d < MAX_DELAY
      invariant i <= failed && d == MIN_DELAY * Pow2(i)
    {
      d := d * 2;
      i := i + 1;
    }
    Pow2Monotone(i, failed);
    DelayExactly(failed);
    return if d < MAX_DELAY then d else MAX_DELAY;
  }

  /** The delays after the first n failures, together. */
  function Span(n: nat): nat { if n == 0 then 0 else Span(n - 1) + DelayAfter(n - 1) }

  lemma {:induction false} SpanAtTheCap(n: nat)
    requires n >= 9
    ensures Span(n) == 5110 + MAX_DELAY * (n - 9)
  {
    if n == 9 {
      assert Pow2(4) == 16 && Pow2(8) == 256;
      assert Span(5) == 310;
      assert Span(9) == 5110;
    } else {
      SpanAtTheCap(n - 1);
      Pow2Monotone(9, n - 1);
      assert Pow2(4) == 16 && Pow2(8) == 256 && Pow2(9) == 512;
    }
  }

  // ---------------------------------------------------------------------------
  // One row
  // ---------------------------------------------------------------------------

  predicate Unfinished(r: Row) { !r.sent && r.attempts < MAX_ATTEMPTS }

  predicate Due(r: Row, now: int) { Unfinished(r) && r.nextAt <= now }

  function NewRow(at: int): Row { Row(0, at, false, [], 0) }

  function Tried(r: Row, at: int, o: Outcome): Row { r.(sends := r.sends + [Send(at, o)]) }

  /** MarkEmailFailed, with the delay for the attempts the pass had read. */
  function MarkFailed(r: Row, failed: nat, at: int): Row {
    if r.sent then r else r.(attempts := r.attempts + 1, nextAt := at + DelayAfter(failed))
  }

  function MarkSent(r: Row): Row {
    if r.sent then r else r.(sent := true, attempts := r.attempts + 1)
  }

  function Unrecorded(r: Row): Row { r.(unrecorded := r.unrecorded + 1) }

  /**
    The attempts of one row: bounded, apart by the delays if all were recorded, and
    then sent exactly if the last one was accepted, before which none was.
  */
  predicate RowOk(r: Row, now: int) {
    && r.attempts <= MAX_ATTEMPTS && |r.sends| == r.attempts + r.unrecorded
    && (forall i :: 0 <= i < |r.sends| ==> r.sends[i].at <= now)
    && (r.sent ==> r.sends != [] && r.sends[|r.sends| - 1].o == Done)
    && (r.unrecorded == 0 ==>
          && (forall i {:trigger DelayAfter(i)} :: 0 <= i < |r.sends| - 1 ==> r.sends[i].at + DelayAfter(i) <= r.sends[i + 1].at)
          && (forall i :: 0 <= i < |r.sends| ==> r.sends[i].o == Done ==> r.sent && i == |r.sends| - 1)
          && (r.sends != [] && !r.sent ==> r.sends[|r.sends| - 1].at + DelayAfter(|r.sends| - 1) <= r.nextAt))
  }

  lemma AttemptKeeps(r: Row, at: int, o: Outcome, marked: int, now: int)
    requires RowOk(r, at) && Due(r, at) && at <= marked <= now
    ensures o == Done ==> RowOk(MarkSent(Tried(r, at, o)), now)
    ensures o != Done ==> RowOk(MarkFailed(Tried(r, at, o), r.attempts, marked), now)
    ensures RowOk(Unrecorded(Tried(r, at, o)), now)
  {
  }

  /**
    No more than 32 attempts, and one more for each that was not recorded. If all
    were recorded the email is sent exactly if an attempt was accepted, that was
    the last one, and it is never due again.
  */
  lemma SentExactlyWhenAccepted(r: Row, now: int, later: int)
    requires RowOk(r, now)
    ensures |r.sends| <= 32 + r.unrecorded
    ensures Due(r, later) <==> !r.sent && r.attempts < 32 && r.nextAt <= later
    ensures r.unrecorded == 0 ==> (r.sent <==> exists i :: 0 <= i < |r.sends| && r.sends[i].o == Done)
    ensures r.unrecorded == 0 && (exists i :: 0 <= i < |r.sends| && r.sends[i].o == Done) ==> !Due(r, later)
  {
    if r.sent { assert r.sends[|r.sends| - 1].o == Done; }
  }

  lemma {:induction false} ApartBySpan(r: Row, now: int, i: nat)
    requires RowOk(r, now) && r.unrecorded == 0 && i < |r.sends|
    ensures r.sends[0].at + Span(i) <= r.sends[i].at
  {
    if i > 0 { ApartBySpan(r, now, i - 1); }
  }

  /** The last attempt comes at least 84,310 seconds after the first. */
  lemma LastAttemptAfter84310(r: Row, now: int)
    requires RowOk(r, now) && r.unrecorded == 0 && |r.sends| == 32
    ensures r.sends[0].at + 84310 <= r.sends[31].at
  {
    ApartBySpan(r, now, 31);
    SpanAtTheCap(31);
  }

  /** A row all of whose n attempts failed, each made the moment it was due. */
  function Prompt(n: nat): Row { Row(n, Span(n), false, seq(n, i requires 0 <= i < n => Send(Span(i), Failed)), 0) }

  /** And it may come no later than that, less than a day after the first. */
  lemma LastAttemptWithinADay()
    ensures Prompt(0) == NewRow(0)
    ensures forall n: nat :: n < MAX_ATTEMPTS ==>
              Due(Prompt(n), Span(n)) && Prompt(n + 1) == MarkFailed(Tried(Prompt(n), Span(n), Failed), n, Span(n))
    ensures Prompt(32).sends[0].at == 0 && Prompt(32).sends[31].at == 84310 < ONE_DAY
  {
    forall n: nat | n < MAX_ATTEMPTS ensures Prompt(n + 1) == MarkFailed(Tried(Prompt(n), Span(n), Failed), n, Span(n)) {
      assert Prompt(n + 1).sends == Prompt(n).sends + [Send(Span(n), Failed)];
    }
    SpanAtTheCap(31);
  }

  // ---------------------------------------------------------------------------
  // Passes
  // ---------------------------------------------------------------------------

  /** What PendingEmails may return. */
  ghost predicate Picked(rows: seq<Row>, now: int, ids: seq<nat>) {
    && |ids| <= BATCH
    && (forall i :: 0 <= i < |ids| ==> ids[i] < |rows| && Due(rows[ids[i]], now))
    && (forall i, j :: 0 <= i < j < |ids| ==> ids[i] != ids[j] && rows[ids[i]].nextAt <= rows[ids[j]].nextAt)
    && (forall d :: 0 <= d < |rows| && Due(rows[d], now) && d !in ids ==>
          |ids| == BATCH && forall i :: 0 <= i < |ids| ==> rows[ids[i]].nextAt <= rows[d].nextAt)
  }

  /** The row was attempted and the outcome recorded, between two moments. */
  ghost predicate Worked(r: Row, r': Row, from: int, to: int) {
    exists at, o, marked :: WorkedAt(r, r', at, o, marked) && from <= at <= marked <= to
  }

  predicate WorkedAt(r: Row, r': Row, at: int, o: Outcome, marked: int) {
    r' == if o == Done then MarkSent(Tried(r, at, o)) else MarkFailed(Tried(r, at, o), r.attempts, marked)
  }

  /** Rows were only added, each due when it was written. */
  ghost predicate Added(rows: seq<Row>, rows': seq<Row>, from: int, to: int) {
    |rows| <= |rows'| && forall d :: |rows| <= d < |rows'| ==> from <= rows'[d].nextAt <= to && rows'[d] == NewRow(rows'[d].nextAt)
  }

  /** Exactly the rows in ids were worked on, and others may have been added. */
  ghost predicate Moves(rows: seq<Row>, rows': seq<Row>, ids: seq<nat>, from: int, to: int) {
    && from <= to && Added(rows, rows', from, to)
    && (forall d :: 0 <= d < |rows| ==> if d in ids then Worked(rows[d], rows'[d], from, to) else rows'[d] == rows[d])
  }

  /** The attempt was made, and its outcome recorded or not. */
  ghost predicate Stopped(r: Row, r': Row, from: int, to: int) {
    Worked(r, r', from, to) || exists at, o :: from <= at <= to && r' == Unrecorded(Tried(r, at, o))
  }

  /** One row was attempted, and rows were added. */
  ghost predicate Touches(rows: seq<Row>, rows': seq<Row>, id: nat, ok: bool, from: int, to: int) {
    && from <= to && id < |rows| && Added(rows, rows', from, to)
    && (forall d :: 0 <= d < |rows| && d != id ==> rows'[d] == rows[d])
    && if ok then Worked(rows[id], rows'[id], from, to) else Stopped(rows[id], rows'[id], from, to)
  }

  /** The first n of ids were worked on, the next one maybe if the pass stopped there, and the others not. */
  ghost predicate Partly(rows: seq<Row>, rows': seq<Row>, ids: seq<nat>, n: nat, stopped: bool, from: int, to: int)
    requires n <= |ids|
  {
    && from <= to && Added(rows, rows', from, to)
    && forall d :: 0 <= d < |rows| ==>
         if d in ids[..n] then Worked(rows[d], rows'[d], from, to)
         else rows'[d] == rows[d] || (stopped && n < |ids| && d == ids[n] && Stopped(rows[d], rows'[d], from, to))
  }

  /** A pass without a database error. */
  datatype Pass = Pass(rows: seq<Row>, from: int, ids: seq<nat>, after: seq<Row>, to: int)

  ghost predicate PassOk(p: Pass) {
    Picked(p.rows, p.from, p.ids) && Moves(p.rows, p.after, p.ids, p.from, p.to)
  }

  /** Between two passes emails are only enqueued. */
  ghost predicate Follows(p: Pass, n: Pass) {
    p.to <= n.from && Added(p.after, n.rows, p.to, n.from) && n.rows[..|p.after|] == p.after
  }

  ghost predicate Passes(ps: seq<Pass>) {
    (forall i :: 0 <= i < |ps| ==> PassOk(ps[i])) && (forall i :: 0 <= i < |ps| - 1 ==> Follows(ps[i], ps[i + 1]))
  }

  // ---------------------------------------------------------------------------
  // Fairness
  // ---------------------------------------------------------------------------

  /** The unsent, unexhausted emails due no later than e. */
  function Ahead(rows: seq<Row>, e: nat): set<nat>
    requires e < |rows|
  {
    set d: nat | d < |rows| && d != e && Unfinished(rows[d]) && rows[d].nextAt <= rows[e].nextAt
  }

  function ToSet(ids: seq<nat>): set<nat> { set d | d in ids }

  lemma {:induction false} DistinctCount(ids: seq<nat>)
    requires forall i, j :: 0 <= i < j < |ids| ==> ids[i] != ids[j]
    ensures |ToSet(ids)| == |ids|
  {
    if ids != [] {
      var n := |ids| - 1;
      DistinctCount(ids[..n]);
      assert ids == ids[..n] + [ids[n]];
      assert ToSet(ids) == ToSet(ids[..n]) + {ids[n]};
    }
  }

  /** An attempt takes a row out of the way of every email that was due. */
  lemma WorkedLeaves(r: Row, r': Row, from: int, to: int, due: int)
    requires Due(r, from) && Worked(r, r', from, to) && due <= from
    ensures !Unfinished(r') || r'.nextAt > due
  {
    var at, o, marked :| WorkedAt(r, r', at, o, marked) && from <= at <= marked <= to;
    assert DelayAfter(r.attempts) >= MIN_DELAY;
  }

  /** A pass that does not attempt a due email spends itself on a hundred that are due no later. */
  lemma PassedOver(p: Pass, e: nat)
    requires PassOk(p) && e < |p.rows| && Due(p.rows[e], p.from) && e !in p.ids
    ensures ToSet(p.ids) <= Ahead(p.rows, e) && |ToSet(p.ids)| == BATCH
  {
    DistinctCount(p.ids);
    forall d | d in p.ids ensures d in Ahead(p.rows, e) {
      var i :| 0 <= i < |p.ids| && p.ids[i] == d;
    }
  }

  /** The emails enqueued between two reads that are due no later than a moment, which takes that very moment. */
  function Joining(rows: seq<Row>, rows': seq<Row>, due: int): set<nat> {
    set d: nat | |rows| <= d < |rows'| && rows'[d].nextAt <= due
  }

  ghost function Joined(ps: seq<Pass>, due: int): nat {
    if |ps| <= 1 then 0 else |Joining(ps[0].rows, ps[1].rows, due)| + Joined(ps[1..], due)
  }

  /** None of those is ahead of it afterwards; of the others only such as join at the very moment it was due. */
  lemma AheadShrinks(p: Pass, rows: seq<Row>, to: int, e: nat)
    requires PassOk(p) && e < |p.rows| && Due(p.rows[e], p.from) && e !in p.ids
    requires Added(p.after, rows, p.to, to) && rows[..|p.after|] == p.after
    ensures rows[e] == p.rows[e]
    ensures Ahead(rows, e) <= Ahead(p.rows, e) - ToSet(p.ids) + Joining(p.rows, rows, p.rows[e].nextAt)
  {
    assert rows[..|p.after|][e] == rows[e];
    forall d | d in Ahead(rows, e) ensures d in Ahead(p.rows, e) - ToSet(p.ids) + Joining(p.rows, rows, p.rows[e].nextAt) {
      if d < |p.rows| {
        assert rows[..|p.after|][d] == rows[d] == p.after[d];
        if d in p.ids {
          var i :| 0 <= i < |p.ids| && p.ids[i] == d;
          WorkedLeaves(p.rows[d], p.after[d], p.from, p.to, p.rows[e].nextAt);
        }
      }
    }
  }

  /**
    A due email that n passes in a row leave alone had a hundred others before it
    for each of them.
  */
  lemma {:induction false} LeftAloneBounded(ps: seq<Pass>, e: nat)
    requires |ps| > 0 && Passes(ps) && e < |ps[0].rows| && Due(ps[0].rows[e], ps[0].from)
    requires forall i :: 0 <= i < |ps| ==> e !in ps[i].ids
    ensures 100 * |ps| <= |Ahead(ps[0].rows, e)| + Joined(ps, ps[0].rows[e].nextAt)
  {
    var p := ps[0];
    PassedOver(p, e);
    Smaller(ToSet(p.ids), Ahead(p.rows, e));
    if |ps| > 1 {
      assert Follows(ps[0], ps[1]);
      AheadShrinks(p, ps[1].rows, ps[1].from, e);
      assert forall i :: 0 <= i < |ps[1..]| ==> ps[1..][i] == ps[i + 1];
      LeftAloneBounded(ps[1..], e);
      AtMost(Ahead(ps[1].rows, e), Ahead(p.rows, e) - ToSet(p.ids), Joining(p.rows, ps[1].rows, p.rows[e].nextAt));
      assert |Ahead(p.rows, e) - ToSet(p.ids)| == |Ahead(p.rows, e)| - BATCH;
    }
  }

  lemma Smaller(a: set<nat>, b: set<nat>)
    requires a <= b
    ensures |a| <= |b| && |b - a| == |b| - |a|
  {
    assert b == a + (b - a);
  }

  lemma AtMost(a: set<nat>, b: set<nat>, c: set<nat>)
    requires a <= b + c
    ensures |a| <= |b| + |c|
  {
    Smaller(a, b + c);
    assert b + c == b + (c - b);
    Smaller(c - b, c);
  }

  /**
    Fairness: a due email is attempted as soon as there were more than k / 100
    passes, where k counts the emails due no later, and those enqueued afterwards
    at the very moment it was due.
  */
  lemma AttemptedInTime(ps: seq<Pass>, e: nat)
    requires |ps| > 0 && Passes(ps) && e < |ps[0].rows| && Due(ps[0].rows[e], ps[0].from)
    requires |ps| == (|Ahead(ps[0].rows, e)| + Joined(ps, ps[0].rows[e].nextAt)) / 100 + 1
    ensures exists i :: 0 <= i < |ps| && e in ps[i].ids
  {
    if forall i :: 0 <= i < |ps| ==> e !in ps[i].ids {
      LeftAloneBounded(ps, e);
    }
  }

  /** Nobody joins an email that was due before the first of the passes. */
  lemma {:induction false} NobodyJoins(ps: seq<Pass>, due: int)
    requires Passes(ps) && (|ps| > 0 ==> due < ps[0].from)
    ensures Joined(ps, due) == 0
  {
    if |ps| > 1 {
      assert PassOk(ps[0]) && Follows(ps[0], ps[1]);
      NoneJoining(ps[0], ps[1], due);
      assert forall i :: 0 <= i < |ps[1..]| ==> ps[1..][i] == ps[i + 1];
      assert Passes(ps[1..]) by {
        forall i | 0 <= i < |ps[1..]| - 1 ensures Follows(ps[1..][i], ps[1..][i + 1]) { assert Follows(ps[i + 1], ps[i + 2]); }
      }
      NobodyJoins(ps[1..], due);
    }
  }

  lemma NoneJoining(p: Pass, n: Pass, due: int)
    requires PassOk(p) && Follows(p, n) && due < p.from
    ensures Joining(p.rows, n.rows, due) == {}
  {
    forall d: nat | |p.rows| <= d < |n.rows| ensures n.rows[d].nextAt > due {
      if d < |p.after| { assert n.rows[..|p.after|][d] == n.rows[d]; }
    }
  }

  // ---------------------------------------------------------------------------
  // The relay's loop
  // ---------------------------------------------------------------------------

  /** ids are the earliest of the due rows, in order, and left are the other ones. */
  ghost predicate Selecting(rows: seq<Row>, now: int, ids: seq<nat>, left: set<nat>) {
    && (forall d :: d in left ==> d < |rows| && Due(rows[d], now))
    && (forall d :: 0 <= d < |rows| && Due(rows[d], now) ==> d in left || d in ids)
    && (forall i :: 0 <= i < |ids| ==> ids[i] < |rows| && Due(rows[ids[i]], now) && ids[i] !in left)
    && (forall i, j :: 0 <= i < j < |ids| ==> ids[i] != ids[j] && rows[ids[i]].nextAt <= rows[ids[j]].nextAt)
    && (forall i, d :: 0 <= i < |ids| && d in left ==> rows[ids[i]].nextAt <= rows[d].nextAt)
  }

  lemma SelectOne(rows: seq<Row>, now: int, ids: seq<nat>, left: set<nat>, first: nat)
    requires Selecting(rows, now, ids, left)
    requires first in left && forall d :: d in left ==> rows[first].nextAt <= rows[d].nextAt
    ensures Selecting(rows, now, ids + [first], left - {first})
  {
    var longer := ids + [first];
    forall d | 0 <= d < |rows| && Due(rows[d], now) ensures d in left - {first} || d in longer {
      assert first == longer[|ids|];
      if d in ids { var k :| 0 <= k < |ids| && ids[k] == d; assert longer[k] == d; }
    }
  }

  lemma StillDue(rows: seq<Row>, rows': seq<Row>, from: int, to: int, ids: seq<nat>, k: nat)
    requires Picked(rows, from, ids) && k < |ids| && Partly(rows, rows', ids, k, false, from, to)
    ensures ids[k] < |rows'| && Due(rows'[ids[k]], to) && rows'[ids[k]] == rows[ids[k]]
  {
    assert ids[k] !in ids[..k];
  }

  lemma WorkedWithin(r: Row, r': Row, from: int, to: int, from': int, to': int)
    requires from' <= from && to <= to'
    ensures Worked(r, r', from, to) ==> Worked(r, r', from', to')
    ensures Stopped(r, r', from, to) ==> Stopped(r, r', from', to')
  {
    if Worked(r, r', from, to) {
      var at, o, marked :| WorkedAt(r, r', at, o, marked) && from <= at <= marked <= to;
      assert WorkedAt(r, r', at, o, marked) && from' <= at <= marked <= to';
    }
  }

  lemma OneMore(rows: seq<Row>, rows1: seq<Row>, rows2: seq<Row>, ids: seq<nat>, k: nat, ok: bool, from: int, mid: int, to: int)
    requires Picked(rows, from, ids) && k < |ids| && Partly(rows, rows1, ids, k, false, from, mid)
    requires Touches(rows1, rows2, ids[k], ok, mid, to)
    ensures ok ==> Partly(rows, rows2, ids, k + 1, false, from, to)
    ensures !ok ==> Partly(rows, rows2, ids, k, true, from, to)
  {
    StillDue(rows, rows1, from, mid, ids, k);
    assert ids[..k + 1] == ids[..k] + [ids[k]];
    forall d | 0 <= d < |rows|
      ensures d in ids[..k] ==> Worked(rows[d], rows2[d], from, to)
      ensures d == ids[k] && ok ==> Worked(rows[d], rows2[d], from, to)
      ensures d == ids[k] ==> Stopped(rows[d], rows2[d], from, to)
      ensures d !in ids[..k] && d != ids[k] ==> rows2[d] == rows[d]
    {
      WorkedWithin(rows[d], rows1[d], from, mid, from, to);
      WorkedWithin(rows1[d], rows2[d], mid, to, from, to);
    }
  }

  // ---------------------------------------------------------------------------
  // The relay
  // ---------------------------------------------------------------------------

  class Relay {
    var rows: seq<Row>
    var now: int

    ghost predicate Valid()
      reads this
    {
      forall d :: 0 <= d < |rows| ==> RowOk(rows[d], now)
    }

    constructor ()
      ensures Valid() && rows == []
    {
      rows, now := [], 0;
    }

    /** Time passes, and emails are enqueued. */
    method Meanwhile()
      requires Valid()
      modifies this
      ensures Valid() && now >= old(now) && Added(old(rows), rows, old(now), now) && rows[..|old(rows)|] == old(rows)
    {
      var emails: int := *;
      Wait();
      while emails > 0
        invariant Valid() && now >= old(now) && Added(old(rows), rows, old(now), now) && rows[..|old(rows)|] == old(rows)
      {
        emails := emails - 1;
        rows := rows + [NewRow(now)];
        Wait();
      }
    }

    method Wait()
      requires Valid()
      modifies this`now
      ensures Valid() && now >= old(now)
    {
      var wait: int := *;
      if wait > 0 { now := now + wait; }
    }

    /** PendingEmails: due rows by the time they are due at, at most a hundred. */
    method PendingEmails() returns (ids: seq<nat>)
      ensures Picked(rows, now, ids)
    {
      ids := [];
      var left := set d: nat | d < |rows| && Due(rows[d], now);
      while left != {} && |ids| < BATCH
        invariant |ids| <= BATCH && Selecting(rows, now, ids, left)
        decreases left
      {
        var first := Earliest(left);
        SelectOne(rows, now, ids, left, first);
        ids := ids + [first];
        left := left - {first};
      }
    }

    method Earliest(left: set<nat>) returns (first: nat)
      requires left != {} && forall d :: d in left ==> d < |rows|
      ensures first in left && forall d :: d in left ==> rows[first].nextAt <= rows[d].nextAt
    {
      first :| first in left;
      var rest := left - {first};
      while rest != {}
        invariant rest <= left && first in left
        invariant forall d :: d in left - rest ==> rows[first].nextAt <= rows[d].nextAt
        decreases rest
      {
        var d :| d in rest;
        if rows[d].nextAt < rows[first].nextAt { first := d; }
        rest := rest - {d};
      }
    }

    /**
      One email: it is handed to the mail server, which answers, and the answer is
      recorded as far as the database works. Accepted mail is sent for good; refused
      mail is put back behind its delay.
    */
    method Attempt(id: nat, a: Answers) returns (delivered: bool, ok: bool)
      requires Valid() && id < |rows| && Due(rows[id], now)
      modifies this
      ensures Valid() && Touches(old(rows), rows, id, ok, old(now), now)
      ensures (delivered <==> a.send == Done) && (ok <==> a.record == Done)
      ensures a.record != Failed ==> RecordedAs(old(rows[id]), rows[id], a.send)
      ensures a.record == Failed ==> rows[id] == Unrecorded(Tried(old(rows[id]), old(now), a.send))
    {
      var at, failed := now, rows[id].attempts;
      ghost var before := rows;
      Meanwhile();
      assert rows[id] == rows[..|before|][id];
      var wait := RetryDelay(failed);
      AttemptKeeps(rows[id], at, a.send, now, now);
      DelayExactly(failed);
      var tried := Tried(rows[id], at, a.send);
      delivered, ok := a.send == Done, a.record == Done;
      var next := if a.record == Failed then Unrecorded(tried)
                  else if a.send == Done then tried.(sent := true, attempts := tried.attempts + 1)
                  else tried.(attempts := tried.attempts + 1, nextAt := now + wait);
      assert a.record != Failed ==> WorkedAt(before[id], next, at, a.send, now);
      assert a.record == Failed ==> next == Unrecorded(Tried(before[id], at, a.send));
      ghost var middle := rows;
      assert forall d :: 0 <= d < |before| ==> middle[d] == before[d] by {
        assert forall d :: 0 <= d < |before| ==> middle[..|before|][d] == middle[d];
      }
      rows := rows[id := next];
    }

    /**
      One pass, with the answers about each email it comes to. If the read works it
      goes through what was picked until an outcome cannot be recorded: done counts
      the emails before that one, whose outcomes are as the mail server answered, and
      sent those of them that it accepted.
    */
    method Drain(read: Outcome, answers: seq<Answers>) returns (sent: nat, ok: bool, ids: seq<nat>, ghost done: nat)
      requires Valid() && |answers| >= BATCH
      modifies this
      ensures Valid() && done <= |ids| <= |answers|
      ensures if read == Done then Picked(old(rows), old(now), ids) else !ok && ids == [] && rows == old(rows)
      ensures Recorded(old(rows), rows, ids, answers, done)
      ensures if done < |ids| then !ok && answers[done].record != Done else ok <==> read == Done
      ensures sent == Accepted(answers, done)
      ensures ok ==> Moves(old(rows), rows, ids, old(now), now)
      ensures Partly(old(rows), rows, ids, done, !ok, old(now), now)
    {
      sent, ok, ids, done := 0, read == Done, [], 0;
      if !ok { return; }
      ids := PendingEmails();
      sent, ok, done := AttemptAll(ids, answers);
      if ok { AllWorked(old(rows), rows, ids, old(now), now); }
    }

    /** The loop over what was picked. */
    method AttemptAll(ids: seq<nat>, answers: seq<Answers>) returns (sent: nat, ok: bool, ghost done: nat)
      requires Valid() && Picked(rows, now, ids) && |ids| <= |answers|
      modifies this
      ensures Valid() && done <= |ids| && sent == Accepted(answers, done) && (ok <==> done == |ids|)
      ensures Midway(old(rows), rows, old(now), now, ids, answers, done, ok)
      ensures !ok ==> answers[done].record != Done
    {
      sent, ok, done := 0, true, 0;
      NothingYet(rows, now, ids, answers);
      ghost var start, from := rows, now;
      for k := 0 to |ids|
        invariant done == k && sent == Accepted(answers, k) && Valid() && ok
        invariant Midway(start, rows, from, now, ids, answers, k, true)
      {
        var delivered;
        delivered, ok := AttemptNext(start, from, ids, k, answers);
        if !ok { return; }
        done := done + 1;
        if delivered { sent := sent + 1; }
      }
    }

    method AttemptNext(ghost start: seq<Row>, ghost from: int, ids: seq<nat>, k: nat, answers: seq<Answers>)
      returns (delivered: bool, ok: bool)
      requires Valid() && k < |ids| <= |answers| && Picked(start, from, ids) && Midway(start, rows, from, now, ids, answers, k, true)
      modifies this
      ensures Valid() && (delivered <==> answers[k].send == Done) && (ok <==> answers[k].record == Done)
      ensures Midway(start, rows, from, now, ids, answers, if ok then k + 1 else k, ok)
    {
      StillDue(start, rows, from, now, ids, k);
      delivered, ok := Attempt(ids[k], answers[k]);
      OneMore(start, old(rows), rows, ids, k, ok, from, old(now), now);
      StaysRecorded(start, old(rows), rows, ids, answers, k);
    }
  }

  /** A pass that began with these rows has worked on the first k of those it picked, and goes on or has stopped. */
  ghost predicate Midway(start: seq<Row>, rows: seq<Row>, from: int, to: int, ids: seq<nat>, answers: seq<Answers>, k: nat, on: bool) {
    k <= |ids| <= |answers| && Partly(start, rows, ids, k, !on, from, to) && Recorded(start, rows, ids, answers, k)
  }

  lemma NothingYet(rows: seq<Row>, now: int, ids: seq<nat>, answers: seq<Answers>)
    requires Picked(rows, now, ids) && |ids| <= |answers|
    ensures Midway(rows, rows, now, now, ids, answers, 0, true)
  {
  }

  /** What the mail server and the database answer about one email. */
  datatype Answers = Answers(send: Outcome, record: Outcome)

  /** How many of the first n emails the mail server accepts. */
  function Accepted(answers: seq<Answers>, n: nat): nat
    requires n <= |answers|
  {
    if n == 0 then 0 else Accepted(answers, n - 1) + if answers[n - 1].send == Done then 1 else 0
  }

  /** One more attempt, with this answer: sent if that was an acceptance, and else put back for later. */
  predicate RecordedAs(r: Row, r': Row, o: Outcome) {
    && r'.attempts == r.attempts + 1 && r'.unrecorded == r.unrecorded
    && |r'.sends| == |r.sends| + 1 && r'.sends[..|r.sends|] == r.sends && r'.sends[|r.sends|].o == o
    && (r'.sent <==> o == Done)
    && (o != Done ==> r'.nextAt >= r'.sends[|r.sends|].at + if r.attempts < 9 then 10 * Pow2(r.attempts) else 3600)
  }

  ghost predicate Recorded(rows: seq<Row>, rows': seq<Row>, ids: seq<nat>, answers: seq<Answers>, n: nat)
    requires n <= |ids| <= |answers|
  {
    forall i {:trigger ids[i]} :: 0 <= i < n ==>
      ids[i] < |rows| && ids[i] < |rows'| && answers[i].record == Done && RecordedAs(rows[ids[i]], rows'[ids[i]], answers[i].send)
  }

  lemma AllWorked(rows: seq<Row>, rows': seq<Row>, ids: seq<nat>, from: int, to: int)
    requires Partly(rows, rows', ids, |ids|, false, from, to)
    ensures Moves(rows, rows', ids, from, to)
  {
    assert ids[..|ids|] == ids;
  }

  lemma StaysRecorded(rows: seq<Row>, rows1: seq<Row>, rows2: seq<Row>, ids: seq<nat>, answers: seq<Answers>, k: nat)
    requires k < |ids| <= |answers| && Recorded(rows, rows1, ids, answers, k) && |rows1| <= |rows2|
    requires forall i, j :: 0 <= i < j < |ids| ==> ids[i] != ids[j]
    requires forall d :: 0 <= d < |rows1| && d != ids[k] ==> rows2[d] == rows1[d]
    ensures Recorded(rows, rows2, ids, answers, k)
    ensures ids[k] < |rows| && ids[k] < |rows2| && answers[k].record == Done && RecordedAs(rows[ids[k]], rows2[ids[k]], answers[k].send) ==>
              Recorded(rows, rows2, ids, answers, k + 1)
  {
  }

  /** The delay after the ninth failure and later ones is an hour, before that ten seconds doubled. */
  lemma DelayExactly(n: nat)
    ensures DelayAfter(n) == if n < 9 then 10 * Pow2(n) else 3600
  {
    assert Pow2(4) == 16 && Pow2(8) == 256 && Pow2(9) == 512;
    if n < 9 { Pow2Monotone(n, 8); } else { Pow2Monotone(9, n); }
  }
}
