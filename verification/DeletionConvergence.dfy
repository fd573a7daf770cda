/**
  Once calls stop failing, no process stops and no new deletion is requested,
  the deletion protocol finishes its work, whatever the schedule.
*/
module DeletionConvergence {
  import opened Common
  import opened Deletion
  import opened Sums

  /** An action of a system in which every call succeeds and nobody starts anything new. */
  ghost predicate Quiet(s: State, a: Action) {
    && Enabled(s, a)
    && match a
       case DropTokens(_) => true
       case Deny(_, o) => o == Done
       case QueueJob(_, o) => o == Done
       case NoteQueued(_, o) => o == Done
       case StartPass(_, batch) => IsBatch(s, batch)
       case RelayJob(_, o) => o == Done
       case NoteRelayed(_, o) => o == Done
       case Deliver(_, _) => true
       case Advance(_, o) => o == Done
       case Expire(_) => true
       case Recover(_) => true
       case _ => false
  }

  ghost predicate QuietNext(s: State, t: State) {
    exists a :: Quiet(s, a) && t == Apply(s, a)
  }

  ghost predicate QuietStepAt(run: seq<State>, i: nat)
    requires i + 1 < |run|
  {
    QuietNext(run[i], run[i + 1])
  }

  /** A schedule of the quiet system: any order of the steps it enables. */
  ghost predicate IsQuietRun(run: seq<State>) {
    run != [] && forall i: nat | i + 1 < |run| :: QuietStepAt(run, i)
  }

  ghost predicate Settled(s: State) {
    forall a :: !Quiet(s, a)
  }

  // ---------------------------------------------------------------------------
  // The measure: what is left to do
  // ---------------------------------------------------------------------------

  function CopyWeight(s: State, id: nat): nat {
    if id !in s.copies then 0 else
    match s.copies[id].place
    case Work => 5
    case Retry => 6
    case Unacked => if Held(s, id) then 0 else 6
    case Dead => 0
  }

  function RequestWeight(pc: Request): nat {
    match pc
    case NoRequest => 0
    case DroppingTokens(_) => 9
    case Denying(_) => 8
    case Publishing(_, _) => 7
    case Marking(_) => 1
  }

  function ConsumerWeight(pc: Consumer): nat {
    if pc.Waiting? then 0 else
    match pc.stage
    case Revoke => 4
    case Check => 9
    case Delete => 3
    case Finish => 2
    case Ack => 1
    case Republish => 8
    case AckRetried => 1
    case Requeue => 6
    case DeadLetter => 1
  }

  /** A pass pays for the rows it holds and for those it, or a later pass of its relay, may still take up. */
  function PassWeight(pc: Pass, pending: set<UserId>): nat {
    match pc
    case NoPass => 9 * |pending|
    case Queueing(rest, _) => 8 * |rest| + 9 * |pending - Elements(rest)|
    case Noting(rest) => (if rest == [] then 0 else 8 * (|rest| - 1) + 1) + 9 * |pending - Elements(rest)|
  }

  function CopyWeights(s: State): seq<nat> { seq(s.nextCopy, id requires 0 <= id => CopyWeight(s, id)) }
  function RequestWeights(s: State): seq<nat> {
    seq(|s.requests|, q requires 0 <= q < |s.requests| => RequestWeight(s.requests[q]))
  }
  function PassWeights(s: State): seq<nat> {
    seq(|s.passes|, r requires 0 <= r < |s.passes| => PassWeight(s.passes[r], Pending(s)))
  }
  function ConsumerWeights(s: State): seq<nat> {
    seq(|s.consumers|, c requires 0 <= c < |s.consumers| => ConsumerWeight(s.consumers[c]))
  }

  function Measure(s: State): nat {
    Sum(CopyWeights(s)) + Sum(RequestWeights(s)) + Sum(PassWeights(s)) + Sum(ConsumerWeights(s))
  }

  // How each effect changes the measure.

  lemma SetRequestMeasure(s: State, q: nat, pc: Request)
    requires q < |s.requests|
    ensures Measure(SetRequest(s, q, pc)) + RequestWeight(s.requests[q]) == Measure(s) + RequestWeight(pc)
  {
    var t := SetRequest(s, q, pc);
    SumUpdate(RequestWeights(s), RequestWeights(t), q);
    assert forall id :: Held(t, id) == Held(s, id);
    assert CopyWeights(t) == CopyWeights(s) && PassWeights(t) == PassWeights(s) && ConsumerWeights(t) == ConsumerWeights(s);
  }

  lemma SetPassMeasure(s: State, r: nat, pc: Pass)
    requires r < |s.passes|
    ensures Measure(SetPass(s, r, pc)) + PassWeight(s.passes[r], Pending(s)) == Measure(s) + PassWeight(pc, Pending(s))
  {
    var t := SetPass(s, r, pc);
    assert Pending(t) == Pending(s);
    SumUpdate(PassWeights(s), PassWeights(t), r);
    assert CopyWeights(t) == CopyWeights(s) && RequestWeights(t) == RequestWeights(s) && ConsumerWeights(t) == ConsumerWeights(s);
  }

  lemma EnqueueMeasure(s: State, m: Copy)
    requires s.nextCopy !in s.copies && m.place in {Work, Retry}
    ensures Measure(Enqueue(s, m)) == Measure(s) + if m.place == Work then 5 else 6
  {
    var t := Enqueue(s, m);
    assert Pending(t) == Pending(s);
    assert CopyWeights(t) == CopyWeights(s) + [if m.place == Work then 5 else 6];
    SumAppend(CopyWeights(s), if m.place == Work then 5 else 6);
    assert PassWeights(t) == PassWeights(s) && RequestWeights(t) == RequestWeights(s) && ConsumerWeights(t) == ConsumerWeights(s);
  }

  /** Account and outbox statements of a quiet system only shrink the set of unpublished rows. */
  lemma StatementMeasure(s: State, t: State)
    requires s.copies == t.copies && s.nextCopy == t.nextCopy
    requires s.requests == t.requests && s.passes == t.passes && s.consumers == t.consumers
    requires Pending(t) <= Pending(s)
    ensures Measure(t) <= Measure(s)
  {
    assert CopyWeights(t) == CopyWeights(s) && RequestWeights(t) == RequestWeights(s) && ConsumerWeights(t) == ConsumerWeights(s);
    forall r | 0 <= r < |s.passes| ensures PassWeights(t)[r] <= PassWeights(s)[r] {
      PassWeightMonotone(s.passes[r], Pending(t), Pending(s));
    }
    SumMonotone(PassWeights(t), PassWeights(s));
  }

  lemma PassWeightMonotone(pc: Pass, fewer: set<UserId>, more: set<UserId>)
    requires fewer <= more
    ensures PassWeight(pc, fewer) <= PassWeight(pc, more)
  {
    SubsetCard(fewer, more);
    if !pc.NoPass? { SubsetCard(fewer - Elements(pc.rest), more - Elements(pc.rest)); }
  }

  lemma SubsetCard<T>(a: set<T>, b: set<T>)
    requires a <= b
    ensures |a| <= |b|
  {
    assert b == a + (b - a);
  }

  /** One consumer and at most one message change. */
  lemma ConsumerMeasure(s: State, t: State, c: nat, id: nat)
    requires c < |s.consumers| && |t.consumers| == |s.consumers| && id < s.nextCopy
    requires t.requests == s.requests && t.passes == s.passes && t.outbox == s.outbox && t.nextCopy == s.nextCopy
    requires forall b :: 0 <= b < |s.consumers| && b != c ==> t.consumers[b] == s.consumers[b]
    requires forall other :: 0 <= other < s.nextCopy && other != id ==> CopyWeight(t, other) == CopyWeight(s, other)
    ensures Measure(t) + ConsumerWeight(s.consumers[c]) + CopyWeight(s, id) ==
            Measure(s) + ConsumerWeight(t.consumers[c]) + CopyWeight(t, id)
  {
    SumUpdate(CopyWeights(s), CopyWeights(t), id);
    SumUpdate(ConsumerWeights(s), ConsumerWeights(t), c);
    assert Pending(t) == Pending(s);
    assert PassWeights(t) == PassWeights(s) && RequestWeights(t) == RequestWeights(s);
  }

  lemma ConsumerOnlyMeasure(s: State, t: State, c: nat)
    requires c < |s.consumers| && |t.consumers| == |s.consumers|
    requires t.requests == s.requests && t.passes == s.passes && t.outbox == s.outbox && t.nextCopy == s.nextCopy
    requires forall b :: 0 <= b < |s.consumers| && b != c ==> t.consumers[b] == s.consumers[b]
    requires forall other :: 0 <= other < s.nextCopy ==> CopyWeight(t, other) == CopyWeight(s, other)
    ensures Measure(t) + ConsumerWeight(s.consumers[c]) == Measure(s) + ConsumerWeight(t.consumers[c])
  {
    assert CopyWeights(t) == CopyWeights(s);
    SumUpdate(ConsumerWeights(s), ConsumerWeights(t), c);
    assert Pending(t) == Pending(s);
    assert PassWeights(t) == PassWeights(s) && RequestWeights(t) == RequestWeights(s);
  }

  /** Moving on within one handling changes neither who holds what nor where the messages are. */
  lemma SetStageMeasure(s: State, c: nat, stage: Stage)
    requires c < |s.consumers| && s.consumers[c].Handling?
    ensures Measure(SetConsumer(s, c, s.consumers[c].(stage := stage))) + ConsumerWeight(s.consumers[c]) ==
            Measure(s) + ConsumerWeight(s.consumers[c].(stage := stage))
  {
    var t := SetConsumer(s, c, s.consumers[c].(stage := stage));
    forall id | 0 <= id < s.nextCopy ensures CopyWeight(t, id) == CopyWeight(s, id) {
      SameHolders(s, t, id);
    }
    ConsumerOnlyMeasure(s, t, c);
  }

  lemma SameHolders(s: State, t: State, id: nat)
    requires |s.consumers| == |t.consumers|
    requires forall b: nat | b < |s.consumers| :: Holds(s.consumers, b, id) == Holds(t.consumers, b, id)
    ensures Held(s, id) == Held(t, id)
  {
    if Held(s, id) {
      var b: nat :| b < |s.consumers| && Holds(s.consumers, b, id);
      assert Holds(t.consumers, b, id);
    }
    if Held(t, id) {
      var b: nat :| b < |t.consumers| && Holds(t.consumers, b, id);
      assert Holds(s.consumers, b, id);
    }
  }

  lemma CountFailureMeasure(s: State, id: nat)
    requires id in s.copies
    ensures Measure(CountFailure(s, id)) == Measure(s)
  {
    var t := CountFailure(s, id);
    assert Pending(t) == Pending(s);
    assert CopyWeights(t) == CopyWeights(s) && PassWeights(t) == PassWeights(s);
    assert RequestWeights(t) == RequestWeights(s) && ConsumerWeights(t) == ConsumerWeights(s);
  }

  // ---------------------------------------------------------------------------
  // Every quiet step makes progress
  // ---------------------------------------------------------------------------

  lemma StatementThenRequest(s: State, t: State, q: nat, pc: Request)
    requires s.copies == t.copies && s.nextCopy == t.nextCopy
    requires s.requests == t.requests && s.passes == t.passes && s.consumers == t.consumers
    requires Pending(t) <= Pending(s) && q < |s.requests|
    ensures Measure(SetRequest(t, q, pc)) + RequestWeight(s.requests[q]) <= Measure(s) + RequestWeight(pc)
  {
    StatementMeasure(s, t);
    SetRequestMeasure(t, q, pc);
  }

  lemma EnqueueThenRequest(s: State, m: Copy, q: nat, pc: Request)
    requires s.nextCopy !in s.copies && m.place == Work && q < |s.requests|
    ensures Measure(SetRequest(Enqueue(s, m), q, pc)) + RequestWeight(s.requests[q]) == Measure(s) + 5 + RequestWeight(pc)
  {
    EnqueueMeasure(s, m);
    SetRequestMeasure(Enqueue(s, m), q, pc);
  }

  lemma {:induction false} DistinctCard(batch: seq<UserId>)
    requires forall i, j :: 0 <= i < j < |batch| ==> batch[i] != batch[j]
    ensures |Elements(batch)| == |batch|
  {
    if batch != [] {
      var rest := batch[..|batch| - 1];
      DistinctCard(rest);
      assert Elements(batch) == Elements(rest) + {batch[|batch| - 1]};
    }
  }

  lemma StartPassShrinks(s: State, r: nat, batch: seq<UserId>)
    requires Quiet(s, StartPass(r, batch))
    ensures Measure(SetPass(s, r, Queueing(batch, false))) < Measure(s)
  {
    var pending := Pending(s);
    SetPassMeasure(s, r, Queueing(batch, false));
    DistinctCard(batch);
    assert Elements(batch) <= pending;
    assert |pending - Elements(batch)| == |pending| - |batch|;
  }

  lemma RelayJobShrinks(s: State, r: nat)
    requires s.nextCopy !in s.copies && Quiet(s, RelayJob(r, Done))
    ensures var rest := s.passes[r].rest;
            Measure(SetPass(Enqueue(s, Copy(rest[0], 0, 0, Work)), r, Noting(rest))) < Measure(s)
  {
    var rest := s.passes[r].rest;
    var t := Enqueue(s, Copy(rest[0], 0, 0, Work));
    EnqueueMeasure(s, Copy(rest[0], 0, 0, Work));
    assert Pending(t) == Pending(s);
    SetPassMeasure(t, r, Noting(rest));
  }

  /** Once its head row is published, a pass holds one row less and owes nothing for the one it let go. */
  lemma NextRowWeight(rest: seq<UserId>, pending: set<UserId>)
    requires rest != [] && rest[0] !in pending
    ensures PassWeight(NextRow(rest), pending) < PassWeight(Noting(rest), pending)
  {
    assert rest == [rest[0]] + rest[1..];
    assert pending - Elements(rest[1..]) == pending - Elements(rest);
    if |rest| == 1 { assert pending - Elements(rest) == pending; }
  }

  lemma NoteRelayedShrinks(s: State, r: nat)
    requires Quiet(s, NoteRelayed(r, Done))
    ensures var rest := s.passes[r].rest;
            Measure(SetPass(MarkDeletionPublished(s, rest[0]), r, NextRow(rest))) < Measure(s)
  {
    var rest := s.passes[r].rest;
    var t := MarkDeletionPublished(s, rest[0]);
    StatementMeasure(s, t);
    SetPassMeasure(t, r, NextRow(rest));
    NextRowWeight(rest, Pending(t));
  }

  lemma HandlerStepShrinks(s: State, c: nat)
    requires Quiet(s, Advance(c, Done)) && s.consumers[c].stage in {Revoke, Check, Delete, Finish}
    ensures Measure(AdvanceConsumer(s, c, Done)) < Measure(s)
  {
    if s.consumers[c].stage == Check {
      CheckStepShrinks(s, c);
    } else {
      HandlerStatementShrinks(s, c);
    }
  }

  lemma HandlerStatementShrinks(s: State, c: nat)
    requires Quiet(s, Advance(c, Done)) && s.consumers[c].stage in {Revoke, Delete, Finish}
    ensures Measure(AdvanceConsumer(s, c, Done)) < Measure(s)
  {
    var u := s.consumers[c].user;
    match s.consumers[c].stage
    case Revoke => StatementThenStage(s, RevokeSessions(s, u), c, Delete);
    case Delete => StatementThenStage(s, DeleteUser(s, u), c, Finish);
    case Finish => StatementThenStage(s, FinishUserDeletion(s, u), c, Ack);
  }

  lemma StatementThenStage(s: State, t: State, c: nat, stage: Stage)
    requires s.copies == t.copies && s.nextCopy == t.nextCopy
    requires s.requests == t.requests && s.passes == t.passes && s.consumers == t.consumers
    requires Pending(t) <= Pending(s) && c < |s.consumers| && s.consumers[c].Handling?
    requires ConsumerWeight(s.consumers[c].(stage := stage)) < ConsumerWeight(s.consumers[c])
    ensures Measure(SetConsumer(t, c, s.consumers[c].(stage := stage))) < Measure(s)
  {
    StatementMeasure(s, t);
    SetStageMeasure(t, c, stage);
  }

  lemma CheckStepShrinks(s: State, c: nat)
    requires Quiet(s, Advance(c, Done)) && s.consumers[c].stage == Check
    ensures Measure(AdvanceConsumer(s, c, Done)) < Measure(s)
  {
    if s.consumers[c].user !in s.users { SetStageMeasure(s, c, Finish); } else { FailHandlingShrinks(s, c); }
  }

  lemma FailHandlingShrinks(s: State, c: nat)
    requires Quiet(s, Advance(c, Done)) && s.consumers[c].stage == Check
    ensures Measure(FailHandling(s, c)) < Measure(s)
  {
    var pc := s.consumers[c];
    if pc.held { CountFailureMeasure(s, pc.delivery); }
    var t := if pc.held then CountFailure(s, pc.delivery) else s;
    SetStageMeasure(t, c, if pc.attempts >= MAX_ATTEMPTS then DeadLetter else Republish);
  }

  lemma EnqueueThenStage(s: State, m: Copy, c: nat, stage: Stage)
    requires s.nextCopy !in s.copies && m.place == Retry && c < |s.consumers| && s.consumers[c].Handling?
    ensures Measure(SetConsumer(Enqueue(s, m), c, s.consumers[c].(stage := stage))) + ConsumerWeight(s.consumers[c]) ==
            Measure(s) + 6 + ConsumerWeight(s.consumers[c].(stage := stage))
  {
    EnqueueMeasure(s, m);
    SetStageMeasure(Enqueue(s, m), c, stage);
  }

  lemma RepublishHeldShrinks(s: State, c: nat)
    requires s.nextCopy !in s.copies && Quiet(s, Advance(c, Done)) && s.consumers[c].stage == Republish && s.consumers[c].held
    ensures Measure(AdvanceConsumer(s, c, Done)) < Measure(s)
  {
    var pc := s.consumers[c];
    var m := Copy(pc.user, pc.attempts, s.copies[pc.delivery].failures, Retry);
    EnqueueThenStage(s, m, c, AckRetried);
    assert AdvanceConsumer(s, c, Done) == SetConsumer(Enqueue(s, m), c, pc.(stage := AckRetried));
  }

  lemma RepublishUnheldShrinks(s: State, c: nat)
    requires Quiet(s, Advance(c, Done)) && s.consumers[c].stage == Republish && !s.consumers[c].held
    ensures Measure(AdvanceConsumer(s, c, Done)) < Measure(s)
  {
    SetStageMeasure(s, c, Requeue);
    assert AdvanceConsumer(s, c, Done) == SetConsumer(s, c, s.consumers[c].(stage := Requeue));
  }

  lemma RepublishStepShrinks(s: State, c: nat)
    requires s.nextCopy !in s.copies && Quiet(s, Advance(c, Done)) && s.consumers[c].stage == Republish
    ensures Measure(AdvanceConsumer(s, c, Done)) < Measure(s)
  {
    if s.consumers[c].held { RepublishHeldShrinks(s, c); } else { RepublishUnheldShrinks(s, c); }
  }

  /** An answer to the broker concerns no message but the one the consumer holds. */
  lemma ReleaseConcernsOwnMessage(s: State, c: nat, id: nat)
    requires Enabled(s, Advance(c, Done)) && s.consumers[c].stage in {Requeue, DeadLetter, Ack, AckRetried}
    requires !(s.consumers[c].held && id == s.consumers[c].delivery)
    ensures CopyWeight(AdvanceConsumer(s, c, Done), id) == CopyWeight(s, id)
  {
    SameHolders(s, AdvanceConsumer(s, c, Done), id);
  }

  lemma ReleaseStepShrinks(s: State, c: nat)
    requires Enabled(s, Advance(c, Done)) && s.consumers[c].stage in {Requeue, DeadLetter, Ack, AckRetried}
    requires s.consumers[c].held ==> s.consumers[c].delivery < s.nextCopy && s.copies[s.consumers[c].delivery].place == Unacked
    ensures Measure(AdvanceConsumer(s, c, Done)) < Measure(s)
  {
    var pc := s.consumers[c];
    var t := AdvanceConsumer(s, c, Done);
    forall id | 0 <= id < s.nextCopy && !(pc.held && id == pc.delivery) ensures CopyWeight(t, id) == CopyWeight(s, id) {
      ReleaseConcernsOwnMessage(s, c, id);
    }
    if pc.held {
      assert Holds(s.consumers, c, pc.delivery);
      assert CopyWeight(s, pc.delivery) == 0;
      assert CopyWeight(t, pc.delivery) <= if pc.stage == Requeue then 5 else 0;
      ConsumerMeasure(s, t, c, pc.delivery);
    } else {
      ConsumerOnlyMeasure(s, t, c);
    }
  }

  lemma DeliverStepShrinks(s: State, c: nat, id: nat)
    requires Inv(s) && Quiet(s, Deliver(c, id))
    ensures Measure(Apply(s, Deliver(c, id))) < Measure(s)
  {
    var t := Apply(s, Deliver(c, id));
    assert CopyOk(s, id) && Holds(t.consumers, c, id);
    forall other | 0 <= other < s.nextCopy && other != id ensures CopyWeight(t, other) == CopyWeight(s, other) {
      SameHolders(s, t, other);
    }
    ConsumerMeasure(s, t, c, id);
  }

  lemma BrokerStepShrinks(s: State, a: Action)
    requires Inv(s) && Quiet(s, a) && (a.Expire? || a.Recover?)
    ensures Measure(Apply(s, a)) < Measure(s)
  {
    var t := Apply(s, a);
    assert CopyOk(s, a.id);
    assert forall other :: Held(t, other) == Held(s, other);
    SumUpdate(CopyWeights(s), CopyWeights(t), a.id);
    assert Pending(t) == Pending(s);
    assert PassWeights(t) == PassWeights(s) && RequestWeights(t) == RequestWeights(s) && ConsumerWeights(t) == ConsumerWeights(s);
  }

  lemma FreshCopy(s: State)
    requires Inv(s)
    ensures s.nextCopy !in s.copies
  {
    assert s.nextCopy in s.copies ==> CopyOk(s, s.nextCopy);
  }

  lemma HeldIsUnacked(s: State, c: nat)
    requires Inv(s) && c < |s.consumers| && s.consumers[c].Handling? && s.consumers[c].held
    ensures var id := s.consumers[c].delivery; id in s.copies && id < s.nextCopy && s.copies[id].place == Unacked
  {
    assert ConsumerOk(s, s.consumers[c]);
    assert CopyOk(s, s.consumers[c].delivery);
  }

  lemma ConsumerStepShrinks(s: State, a: Action)
    requires Inv(s) && Quiet(s, a) && (a.Advance? || a.Deliver?)
    ensures Measure(Apply(s, a)) < Measure(s)
  {
    FreshCopy(s);
    match a
    case Advance(c, _) =>
      var stage := s.consumers[c].stage;
      if stage in {Revoke, Check, Delete, Finish} { HandlerStepShrinks(s, c); }
      else if stage == Republish { RepublishStepShrinks(s, c); }
      else { if s.consumers[c].held { HeldIsUnacked(s, c); } ReleaseStepShrinks(s, c); }
    case Deliver(c, id) => DeliverStepShrinks(s, c, id);
  }

  lemma PassStepShrinks(s: State, a: Action)
    requires s.nextCopy !in s.copies && Quiet(s, a) && (a.StartPass? || a.RelayJob? || a.NoteRelayed?)
    ensures Measure(Apply(s, a)) < Measure(s)
  {
    match a
    case StartPass(r, batch) => StartPassShrinks(s, r, batch);
    case RelayJob(r, _) => RelayJobShrinks(s, r);
    case NoteRelayed(r, _) => NoteRelayedShrinks(s, r);
  }

  lemma QueueJobShrinks(s: State, q: nat)
    requires s.nextCopy !in s.copies && Quiet(s, QueueJob(q, Done))
    ensures Measure(Apply(s, QueueJob(q, Done))) < Measure(s)
  {
    EnqueueThenRequest(s, Copy(s.requests[q].user, 0, 0, Work), q, Marking(s.requests[q].user));
  }

  lemma StatementStepShrinks(s: State, a: Action)
    requires Quiet(s, a) && (a.DropTokens? || a.Deny? || a.NoteQueued?)
    ensures Measure(Apply(s, a)) < Measure(s)
  {
    var u := s.requests[a.q].user;
    match a
    case DropTokens(q) =>
      StatementThenRequest(s, s, q, Denying(u));
      assert Apply(s, a) == SetRequest(s, q, Denying(u));
    case Deny(q, _) =>
      StatementThenRequest(s, RevokeSessions(s, u), q, Publishing(u, false));
      assert Apply(s, a) == SetRequest(RevokeSessions(s, u), q, Publishing(u, false));
    case NoteQueued(q, _) =>
      StatementThenRequest(s, MarkDeletionPublished(s, u), q, NoRequest);
      assert Apply(s, a) == SetRequest(MarkDeletionPublished(s, u), q, NoRequest);
  }

  /** Every step of the quiet system leaves less to do, and keeps the protocol's invariant. */
  lemma QuietStepShrinks(s: State, t: State)
    requires Inv(s) && QuietNext(s, t)
    ensures Inv(t) && Measure(t) < Measure(s)
  {
    var a :| Quiet(s, a) && t == Apply(s, a);
    assert Next(s, t);
    StepKeeps(s, t);
    FreshCopy(s);
    if a.Advance? || a.Deliver? { ConsumerStepShrinks(s, a); }
    else if a.Expire? || a.Recover? { BrokerStepShrinks(s, a); }
    else if a.QueueJob? { QueueJobShrinks(s, a.q); }
    else if a.DropTokens? || a.Deny? || a.NoteQueued? { StatementStepShrinks(s, a); }
    else { PassStepShrinks(s, a); }
  }

  // ---------------------------------------------------------------------------
  // What is left when nothing can move
  // ---------------------------------------------------------------------------

  /** The k oldest rows of a set of unpublished rows, oldest first. */
  lemma {:induction false} OldestFirst(s: State, rows: set<UserId>, k: nat) returns (batch: seq<UserId>)
    requires rows <= Pending(s) && k <= |rows|
    ensures |batch| == k && (forall i :: 0 <= i < k ==> batch[i] in rows)
    ensures forall i, j :: 0 <= i < j < k ==> batch[i] != batch[j]
    ensures forall i, j :: 0 <= i < j < k ==> s.outbox[batch[i]].requestedAt <= s.outbox[batch[j]].requestedAt
    ensures forall i, u :: 0 <= i < k && u in rows && u !in batch ==> s.outbox[batch[i]].requestedAt <= s.outbox[u].requestedAt
  {
    if k == 0 {
      batch := [];
    } else {
      var first := Oldest(s, rows);
      var rest := OldestFirst(s, rows - {first}, k - 1);
      batch := [first] + rest;
    }
  }

  lemma {:induction false} Oldest(s: State, rows: set<UserId>) returns (first: UserId)
    requires rows != {} && rows <= Pending(s)
    ensures first in rows && forall u :: u in rows ==> s.outbox[first].requestedAt <= s.outbox[u].requestedAt
  {
    first :| first in rows;
    if rows != {first} {
      var other := Oldest(s, rows - {first});
      if s.outbox[other].requestedAt < s.outbox[first].requestedAt { first := other; }
    }
  }

  /** While a relay is idle and rows are unpublished, a pass can start. */
  lemma PassCanStart(s: State, r: nat)
    requires r < |s.passes| && s.passes[r].NoPass? && Pending(s) != {}
    ensures !Settled(s)
  {
    var rows := Pending(s);
    var batch := OldestFirst(s, rows, if |rows| < RELAY_BATCH then |rows| else RELAY_BATCH);
    assert batch != [];
    assert Quiet(s, StartPass(r, batch));
  }

  /** In a settled system every process is idle. */
  lemma SettledIsIdle(s: State)
    requires Inv(s) && Settled(s)
    ensures forall q :: 0 <= q < |s.requests| ==> s.requests[q].NoRequest?
    ensures forall r :: 0 <= r < |s.passes| ==> s.passes[r].NoPass?
    ensures forall c :: 0 <= c < |s.consumers| ==> s.consumers[c].Waiting?
  {
    forall q | 0 <= q < |s.requests| ensures s.requests[q].NoRequest? {
      assert !Quiet(s, DropTokens(q)) && !Quiet(s, Deny(q, Done)) && !Quiet(s, QueueJob(q, Done)) && !Quiet(s, NoteQueued(q, Done));
    }
    forall r | 0 <= r < |s.passes| ensures s.passes[r].NoPass? {
      assert PassOk(s, s.passes[r]);
      assert !Quiet(s, RelayJob(r, Done)) && !Quiet(s, NoteRelayed(r, Done));
    }
    forall c | 0 <= c < |s.consumers| ensures s.consumers[c].Waiting? {
      assert ConsumerOk(s, s.consumers[c]);
      assert !Quiet(s, Advance(c, Done));
    }
  }

  /**
    With at least one relay and one consumer, a settled system has applied every
    recorded deletion in full, except those given up on after twenty failed
    handlings, whose only messages are in the dead-letter queue.
  */
  lemma SettledOutcome(s: State)
    requires Inv(s) && Settled(s) && |s.passes| > 0 && |s.consumers| > 0
    ensures forall id :: id in s.copies ==> s.copies[id].place == Dead
    ensures forall u :: u in s.requested ==>
              Gone(s, u) || exists id :: id in s.copies && s.copies[id].user == u && s.copies[id].failures >= 20
  {
    SettledIsIdle(s);
    forall id | id in s.copies ensures s.copies[id].place == Dead {
      assert CopyOk(s, id);
      assert !Quiet(s, Expire(id)) && !Quiet(s, Recover(id)) && !Quiet(s, Deliver(0, id));
      assert !Held(s, id);
    }
    if Pending(s) != {} { PassCanStart(s, 0); }
    forall u | u in s.requested && !Gone(s, u)
      ensures exists id :: id in s.copies && s.copies[id].user == u && s.copies[id].failures >= MAX_ATTEMPTS
    {
      assert u in s.outbox && u !in Pending(s);
      assert Anchored(s, u);
      var id :| Stays(s, u, id);
      assert CopyOk(s, id);
    }
  }

  lemma {:induction false} QuietRunShrinks(run: seq<State>, i: nat)
    requires IsQuietRun(run) && Inv(run[0]) && i < |run|
    ensures Inv(run[i]) && Measure(run[i]) + i <= Measure(run[0])
  {
    if i > 0 {
      QuietRunShrinks(run, i - 1);
      assert QuietStepAt(run, i - 1);
      QuietStepShrinks(run[i - 1], run[i]);
    }
  }

  /**
    Deletion converges. From any state some run reaches, every schedule of the
    quiet system is finite, with a length known beforehand, and where no step is
    left every recorded deletion has been applied or dead-lettered.
  */
  lemma Converges(run: seq<State>, quiet: seq<State>)
    requires IsRun(run) && IsQuietRun(quiet) && quiet[0] == run[|run| - 1]
    requires |quiet[0].passes| > 0 && |quiet[0].consumers| > 0
    ensures |quiet| <= Measure(quiet[0]) + 1
    ensures var s := quiet[|quiet| - 1];
            Settled(s) ==>
              && (forall id :: id in s.copies ==> s.copies[id].place == Dead)
              && forall u :: u in s.requested ==>
                   Gone(s, u) || exists id :: id in s.copies && s.copies[id].user == u && s.copies[id].failures >= 20
  {
    RunKeeps(run, |run| - 1);
    QuietRunShrinks(quiet, |quiet| - 1);
    SameProcesses(quiet, |quiet| - 1);
    var s := quiet[|quiet| - 1];
    if Settled(s) { SettledOutcome(s); }
  }

  lemma {:induction false} SameProcesses(run: seq<State>, i: nat)
    requires IsQuietRun(run) && i < |run|
    ensures |run[i].passes| == |run[0].passes| && |run[i].consumers| == |run[0].consumers|
  {
    if i > 0 {
      SameProcesses(run, i - 1);
      assert QuietStepAt(run, i - 1);
      var a :| Quiet(run[i - 1], a) && run[i] == Apply(run[i - 1], a);
      if a.Advance? { AdvanceKeepsSizes(run[i - 1], a.c, a.o); }
    }
  }

  lemma AdvanceKeepsSizes(s: State, c: nat, o: Outcome)
    requires Enabled(s, Advance(c, o))
    ensures |AdvanceConsumer(s, c, o).passes| == |s.passes| && |AdvanceConsumer(s, c, o).consumers| == |s.consumers|
  {
    match s.consumers[c].stage
    case Revoke =>
    case Check =>
    case Delete =>
    case Finish =>
    case Republish =>
    case _ =>
  }
}
