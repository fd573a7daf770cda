/**
  The account deletion protocol: DELETE /me records a deletion, the relay and
  the request queue a job for it, and the worker applies it at least once.

  The model is a state machine. One action is one SQL statement, broker call or
  Redis call of one process, and any number of requests, relay passes and
  consumers interleave. Every call may fail with or without having taken effect,
  and every process may stop between two calls.
*/
module Deletion {
  import opened Common

  type UserId = nat

  /** How many handlings a job gets before it is dead-lettered. */
  const MAX_ATTEMPTS := 20

  /** How many outbox rows one relay pass reads. */
  const RELAY_BATCH := 100

  /** A row of account_deletions. */
  datatype Row = Row(requestedAt: nat, published: bool)

  datatype Place = Work | Retry | Unacked | Dead

  /**
    One message held by the broker. `attempts` is the x-attempts header;
    `failures` is history: the failed handlings of this message and of the
    messages it was republished from.
  */
  datatype Copy = Copy(user: UserId, attempts: nat, failures: nat, place: Place)

  /** Where DeleteAccount is after its first statement. */
  datatype Request =
    | NoRequest
    | DroppingTokens(user: UserId)
    | Denying(user: UserId)
    | Publishing(user: UserId, again: bool)
    | Marking(user: UserId)

  /** Where Drain is: `rest` starts with the row it is working on. */
  datatype Pass =
    | NoPass
    | Queueing(rest: seq<UserId>, again: bool)
    | Noting(rest: seq<UserId>)

  datatype Stage = Revoke | Check | Delete | Finish | Ack | Republish | AckRetried | Requeue | DeadLetter

  /** Where Consume is. `held` is whether the broker still counts the delivery as this consumer's. */
  datatype Consumer =
    | Waiting
    | Handling(delivery: nat, user: UserId, attempts: nat, held: bool, stage: Stage)

  /**
    `users` maps each existing row to whether deleted_at is set. History:
    `known` holds every id ever given to a row, `requested` every id whose
    deletion was recorded, `queued` every id the broker accepted a job for and
    `denied` every id that was put on the denylist.
  */
  datatype State = State(
    clock: nat,
    users: map<UserId, bool>,
    outbox: map<UserId, Row>,
    copies: map<nat, Copy>,
    nextCopy: nat,
    requests: seq<Request>,
    passes: seq<Pass>,
    consumers: seq<Consumer>,
    known: set<UserId>,
    requested: set<UserId>,
    queued: set<UserId>,
    denied: set<UserId>)

  datatype Action =
    | CreateUser(u: UserId)
    | RollBackSignUp(u: UserId)
    | Ask(q: nat, u: UserId, o: Outcome)
    | DropTokens(q: nat)
    | Deny(q: nat, o: Outcome)
    | QueueJob(q: nat, o: Outcome)
    | NoteQueued(q: nat, o: Outcome)
    | EndRequest(q: nat)
    | StartPass(r: nat, batch: seq<UserId>)
    | RelayJob(r: nat, o: Outcome)
    | NoteRelayed(r: nat, o: Outcome)
    | EndPass(r: nat)
    | Deliver(c: nat, id: nat)
    | Advance(c: nat, o: Outcome)
    | LoseChannel(c: nat)
    | Crash(c: nat)
    | Expire(id: nat)
    | Recover(id: nat)

  // ---------------------------------------------------------------------------
  // Statements and broker calls
  // ---------------------------------------------------------------------------

  /** RequestUserDeletion: the mark and the outbox row, in one statement. */
  function RequestUserDeletion(s: State, u: UserId): State {
    if u in s.users then
      s.(users := s.users[u := true],
         outbox := s.outbox[u := Row(s.clock, false)],
         clock := s.clock + 1,
         requested := s.requested + {u})
    else s
  }

  function MarkDeletionPublished(s: State, u: UserId): State {
    if u in s.outbox then s.(outbox := s.outbox[u := s.outbox[u].(published := true)]) else s
  }

  function DeleteUser(s: State, u: UserId): State {
    s.(users := s.users - {u})
  }

  function FinishUserDeletion(s: State, u: UserId): State {
    s.(outbox := s.outbox - {u})
  }

  function RevokeSessions(s: State, u: UserId): State {
    s.(denied := s.denied + {u})
  }

  function Enqueue(s: State, copy: Copy): State {
    s.(copies := s.copies[s.nextCopy := copy], nextCopy := s.nextCopy + 1, queued := s.queued + {copy.user})
  }

  function Move(s: State, id: nat, place: Place): State
    requires id in s.copies
  {
    s.(copies := s.copies[id := s.copies[id].(place := place)])
  }

  function CountFailure(s: State, id: nat): State
    requires id in s.copies
  {
    s.(copies := s.copies[id := s.copies[id].(failures := s.copies[id].failures + 1)])
  }

  function Remove(s: State, id: nat): State {
    s.(copies := s.copies - {id})
  }

  function Pending(s: State): set<UserId> {
    set u | u in s.outbox && !s.outbox[u].published
  }

  function Elements(batch: seq<UserId>): set<UserId> {
    set u | u in batch
  }

  /** PendingDeletions: the oldest unpublished rows, up to RELAY_BATCH of them. */
  ghost predicate IsBatch(s: State, batch: seq<UserId>) {
    && (forall i, j :: 0 <= i < j < |batch| ==> batch[i] != batch[j])
    && (forall i :: 0 <= i < |batch| ==> batch[i] in Pending(s))
    && |batch| == (if |Pending(s)| < RELAY_BATCH then |Pending(s)| else RELAY_BATCH)
    && (forall i, j :: 0 <= i < j < |batch| ==> s.outbox[batch[i]].requestedAt <= s.outbox[batch[j]].requestedAt)
    && (forall i, u :: 0 <= i < |batch| && u in Pending(s) && u !in batch ==>
          s.outbox[batch[i]].requestedAt <= s.outbox[u].requestedAt)
  }

  // ---------------------------------------------------------------------------
  // Processes
  // ---------------------------------------------------------------------------

  function SetRequest(s: State, q: nat, pc: Request): State
    requires q < |s.requests|
  {
    s.(requests := s.requests[q := pc])
  }

  function SetPass(s: State, r: nat, pc: Pass): State
    requires r < |s.passes|
  {
    s.(passes := s.passes[r := pc])
  }

  function SetConsumer(s: State, c: nat, pc: Consumer): State
    requires c < |s.consumers|
  {
    s.(consumers := s.consumers[c := pc])
  }

  predicate Holds(consumers: seq<Consumer>, c: nat, id: nat) {
    c < |consumers| && consumers[c].Handling? && consumers[c].held && consumers[c].delivery == id
  }

  predicate Held(s: State, id: nat) {
    exists c: nat | c < |s.consumers| :: Holds(s.consumers, c, id)
  }

  /** The pass after the row at its head has been dealt with. */
  function NextRow(rest: seq<UserId>): Pass
    requires rest != []
  {
    if |rest| == 1 then NoPass else Queueing(rest[1..], false)
  }

  /**
    A handling has failed: the job goes to the dead-letter queue when this was
    its last attempt and is republished otherwise.
  */
  function FailHandling(s: State, c: nat): State
    requires c < |s.consumers| && s.consumers[c].Handling?
    requires s.consumers[c].held ==> s.consumers[c].delivery in s.copies
  {
    var pc := s.consumers[c];
    var t := if pc.held then CountFailure(s, pc.delivery) else s;
    SetConsumer(t, c, pc.(stage := if pc.attempts >= MAX_ATTEMPTS then DeadLetter else Republish))
  }

  /** One call of the delivery handler and of what follows it. */
  function AdvanceConsumer(s: State, c: nat, o: Outcome): State
    requires c < |s.consumers| && s.consumers[c].Handling?
    requires s.consumers[c].held ==> s.consumers[c].delivery in s.copies
  {
    var pc := s.consumers[c];
    var u := pc.user;
    match pc.stage
    case Revoke =>
      var t := if o == Failed then s else RevokeSessions(s, u);
      SetConsumer(t, c, pc.(stage := if o == Done then Delete else Check))
    case Check =>
      if o == Done && u !in s.users then SetConsumer(s, c, pc.(stage := Finish)) else FailHandling(s, c)
    case Delete =>
      var t := if o == Failed then s else DeleteUser(s, u);
      if o == Done then SetConsumer(t, c, pc.(stage := Finish)) else FailHandling(t, c)
    case Finish =>
      var t := if o == Failed then s else FinishUserDeletion(s, u);
      if o == Done then SetConsumer(t, c, pc.(stage := Ack)) else FailHandling(t, c)
    case Republish =>
      var t := if o == Failed || !pc.held then s
               else Enqueue(s, Copy(u, pc.attempts, s.copies[pc.delivery].failures, Retry));
      SetConsumer(t, c, pc.(stage := if o == Done && pc.held then AckRetried else Requeue))
    case Requeue =>
      var t := SetConsumer(s, c, Waiting);
      if o == Done && pc.held then Move(t, pc.delivery, Work) else t
    case DeadLetter =>
      var t := SetConsumer(s, c, Waiting);
      if o == Done && pc.held then Move(t, pc.delivery, Dead) else t
    case Ack =>
      var t := SetConsumer(s, c, Waiting);
      if o == Done && pc.held then Remove(t, pc.delivery) else t
    case AckRetried =>
      var t := SetConsumer(s, c, Waiting);
      if o == Done && pc.held then Remove(t, pc.delivery) else t
  }

  predicate Enabled(s: State, a: Action) {
    match a
    case CreateUser(u) => u !in s.known
    case RollBackSignUp(u) => u in s.users && u !in s.requested
    case Ask(q, u, _) => q < |s.requests| && s.requests[q].NoRequest?
    case DropTokens(q) => q < |s.requests| && s.requests[q].DroppingTokens?
    case Deny(q, _) => q < |s.requests| && s.requests[q].Denying?
    case QueueJob(q, _) => q < |s.requests| && s.requests[q].Publishing?
    case NoteQueued(q, _) => q < |s.requests| && s.requests[q].Marking?
    case EndRequest(q) => q < |s.requests|
    case StartPass(r, batch) => r < |s.passes| && s.passes[r].NoPass? && batch != []
    case RelayJob(r, _) => r < |s.passes| && s.passes[r].Queueing? && s.passes[r].rest != []
    case NoteRelayed(r, _) => r < |s.passes| && s.passes[r].Noting? && s.passes[r].rest != []
    case EndPass(r) => r < |s.passes|
    case Deliver(c, id) => c < |s.consumers| && s.consumers[c].Waiting? && id in s.copies && s.copies[id].place == Work
    case Advance(c, _) =>
      && c < |s.consumers| && s.consumers[c].Handling?
      && (s.consumers[c].held ==> s.consumers[c].delivery in s.copies)
    case LoseChannel(c) => c < |s.consumers| && s.consumers[c].Handling?
    case Crash(c) => c < |s.consumers|
    case Expire(id) => id in s.copies && s.copies[id].place == Retry
    case Recover(id) => id in s.copies && s.copies[id].place == Unacked && !Held(s, id)
  }

  function Apply(s: State, a: Action): State
    requires Enabled(s, a)
  {
    match a
    case CreateUser(u) => s.(users := s.users[u := false], known := s.known + {u})
    case RollBackSignUp(u) => DeleteUser(s, u)
    case Ask(q, u, o) =>
      var t := if o == Failed then s else RequestUserDeletion(s, u);
      if o == Done && u in s.users then SetRequest(t, q, DroppingTokens(u)) else t
    case DropTokens(q) => SetRequest(s, q, Denying(s.requests[q].user))
    case Deny(q, o) =>
      var u := s.requests[q].user;
      SetRequest(if o == Failed then s else RevokeSessions(s, u), q, Publishing(u, false))
    case QueueJob(q, o) =>
      var pc := s.requests[q];
      var t := if o == Failed then s else Enqueue(s, Copy(pc.user, 0, 0, Work));
      SetRequest(t, q, if o == Done then Marking(pc.user) else if pc.again then NoRequest else Publishing(pc.user, true))
    case NoteQueued(q, o) =>
      SetRequest(if o == Failed then s else MarkDeletionPublished(s, s.requests[q].user), q, NoRequest)
    case EndRequest(q) => SetRequest(s, q, NoRequest)
    case StartPass(r, batch) => SetPass(s, r, Queueing(batch, false))
    case RelayJob(r, o) =>
      var pc := s.passes[r];
      var t := if o == Failed then s else Enqueue(s, Copy(pc.rest[0], 0, 0, Work));
      SetPass(t, r, if o == Done then Noting(pc.rest) else if pc.again then NoPass else Queueing(pc.rest, true))
    case NoteRelayed(r, o) =>
      var rest := s.passes[r].rest;
      SetPass(if o == Failed then s else MarkDeletionPublished(s, rest[0]), r, if o == Done then NextRow(rest) else NoPass)
    case EndPass(r) => SetPass(s, r, NoPass)
    case Deliver(c, id) =>
      SetConsumer(Move(s, id, Unacked), c, Handling(id, s.copies[id].user, s.copies[id].attempts + 1, true, Revoke))
    case Advance(c, o) => AdvanceConsumer(s, c, o)
    case LoseChannel(c) => SetConsumer(s, c, s.consumers[c].(held := false))
    case Crash(c) => SetConsumer(s, c, Waiting)
    case Expire(id) => Move(s, id, Work)
    case Recover(id) => Move(s, id, Work)
  }

  ghost predicate Init(s: State) {
    && s.users.Keys == s.known
    && (forall u :: u in s.users ==> !s.users[u])
    && s.outbox == map[] && s.copies == map[] && s.nextCopy == 0
    && (forall q :: 0 <= q < |s.requests| ==> s.requests[q] == NoRequest)
    && (forall r :: 0 <= r < |s.passes| ==> s.passes[r] == NoPass)
    && (forall c :: 0 <= c < |s.consumers| ==> s.consumers[c] == Waiting)
    && s.requested == s.queued == s.denied == {}
  }

  ghost predicate Next(s: State, t: State) {
    exists a :: Enabled(s, a) && (a.StartPass? ==> IsBatch(s, a.batch)) && t == Apply(s, a)
  }

  ghost predicate StepAt(run: seq<State>, i: nat)
    requires i + 1 < |run|
  {
    Next(run[i], run[i + 1])
  }

  ghost predicate IsRun(run: seq<State>) {
    run != [] && Init(run[0]) && forall i: nat | i + 1 < |run| :: StepAt(run, i)
  }

  // ---------------------------------------------------------------------------
  // Invariant
  // ---------------------------------------------------------------------------

  /** The deletion of u has been applied in full. */
  predicate Gone(s: State, u: UserId) {
    u in s.requested && u !in s.users && u !in s.outbox
  }

  /** Consumer c is about to acknowledge message id because it republished it. */
  predicate Retiring(consumers: seq<Consumer>, c: nat, id: nat) {
    Holds(consumers, c, id) && consumers[c].stage == AckRetried
  }

  ghost predicate OneHolder(consumers: seq<Consumer>) {
    forall b: nat, c: nat, id :: Holds(consumers, b, id) && Holds(consumers, c, id) ==> b == c
  }

  predicate Stays(s: State, u: UserId, id: nat) {
    && id in s.copies && s.copies[id].user == u
    && forall c: nat | c < |s.consumers| :: !Retiring(s.consumers, c, id)
  }

  /** The broker keeps a message for u that no consumer is about to drop. */
  ghost predicate Anchored(s: State, u: UserId) {
    exists id :: Stays(s, u, id)
  }

  ghost predicate Accounts(s: State) {
    && s.users.Keys <= s.known && s.requested <= s.known
    && (forall u :: u in s.users && u in s.requested ==> s.users[u])
    && (forall u :: u in s.users && s.users[u] ==> u in s.outbox)
    && (forall u :: u in s.requested && u !in s.users ==> u in s.denied)
  }

  ghost predicate Rows(s: State) {
    && s.outbox.Keys <= s.requested && s.queued <= s.requested
    && (forall u :: u in s.outbox && s.outbox[u].published ==> u in s.queued)
  }

  predicate CopyOk(s: State, id: nat)
    requires id in s.copies
  {
    var m := s.copies[id];
    && id < s.nextCopy && m.user in s.queued && m.attempts <= m.failures
    && (m.place != Dead ==> m.attempts < MAX_ATTEMPTS)
    && (m.place == Dead ==> m.failures >= MAX_ATTEMPTS)
  }

  predicate RequestOk(s: State, pc: Request) {
    pc.NoRequest? || (pc.user in s.requested && (pc.Marking? ==> pc.user in s.queued))
  }

  predicate PassOk(s: State, pc: Pass) {
    pc.NoPass? || (pc.rest != [] && Elements(pc.rest) <= s.requested && (pc.Noting? ==> pc.rest[0] in s.queued))
  }

  predicate ConsumerOk(s: State, pc: Consumer) {
    pc.Handling? ==>
      && pc.user in s.requested && 1 <= pc.attempts <= MAX_ATTEMPTS
      && (pc.stage == Delete ==> pc.user in s.denied)
      && (pc.stage == Finish ==> pc.user !in s.users)
      && (pc.stage == Ack ==> Gone(s, pc.user))
      && (pc.stage == Republish ==> pc.attempts < MAX_ATTEMPTS)
      && (pc.stage == DeadLetter ==> pc.attempts == MAX_ATTEMPTS)
      && (pc.held ==>
            && pc.delivery in s.copies
            && var m := s.copies[pc.delivery];
               && m.user == pc.user && m.place == Unacked && m.attempts + 1 == pc.attempts
               && (pc.stage in {Republish, DeadLetter} ==> m.failures >= pc.attempts))
  }

  ghost predicate Processes(s: State) {
    && (forall q :: 0 <= q < |s.requests| ==> RequestOk(s, s.requests[q]))
    && (forall r :: 0 <= r < |s.passes| ==> PassOk(s, s.passes[r]))
    && (forall c :: 0 <= c < |s.consumers| ==> ConsumerOk(s, s.consumers[c]))
    && OneHolder(s.consumers)
  }

  ghost predicate Kept(s: State) {
    forall u :: u in s.queued ==> Anchored(s, u) || Gone(s, u)
  }

  ghost predicate Inv(s: State) {
    Accounts(s) && Rows(s) && (forall id :: id in s.copies ==> CopyOk(s, id)) && Processes(s) && Kept(s)
  }

  // ---------------------------------------------------------------------------
  // Every step keeps the invariant
  // ---------------------------------------------------------------------------

  lemma InitEstablishes(s: State)
    requires Init(s)
    ensures Inv(s)
  {
  }

  // The effects one by one.

  lemma RequestKeeps(s: State, u: UserId)
    requires Inv(s)
    ensures Inv(RequestUserDeletion(s, u))
  {
    var t := RequestUserDeletion(s, u);
    forall v | v in t.queued ensures Anchored(t, v) || Gone(t, v) {
      assert Anchored(s, v) || Gone(s, v);
      AnchorsRemain(s, t, v);
    }
  }

  /** Anchors depend on the messages and the consumers alone. */
  lemma AnchorsRemain(s: State, t: State, u: UserId)
    requires s.consumers == t.consumers
    requires forall id :: Stays(s, u, id) ==> id in t.copies && t.copies[id].user == u
    ensures Anchored(s, u) ==> Anchored(t, u)
  {
    if Anchored(s, u) {
      var id :| Stays(s, u, id);
      forall c: nat | c < |t.consumers| ensures !Retiring(t.consumers, c, id) {
        assert !Retiring(s.consumers, c, id);
      }
      assert Stays(t, u, id);
    }
  }

  lemma MarkPublishedKeeps(s: State, u: UserId)
    requires Inv(s) && u in s.queued
    ensures Inv(MarkDeletionPublished(s, u))
  {
    var t := MarkDeletionPublished(s, u);
    forall v | v in t.queued ensures Anchored(t, v) || Gone(t, v) {
      AnchorsRemain(s, t, v);
    }
  }

  lemma DeleteUserKeeps(s: State, u: UserId)
    requires Inv(s) && (u in s.requested ==> u in s.denied)
    ensures Inv(DeleteUser(s, u))
  {
    var t := DeleteUser(s, u);
    forall v | v in t.queued ensures Anchored(t, v) || Gone(t, v) {
      AnchorsRemain(s, t, v);
    }
  }

  lemma FinishKeeps(s: State, u: UserId)
    requires Inv(s) && u !in s.users
    ensures Inv(FinishUserDeletion(s, u))
  {
    var t := FinishUserDeletion(s, u);
    forall v | v in t.queued ensures Anchored(t, v) || Gone(t, v) {
      AnchorsRemain(s, t, v);
    }
  }

  lemma RevokeKeeps(s: State, u: UserId)
    requires Inv(s)
    ensures Inv(RevokeSessions(s, u))
  {
    var t := RevokeSessions(s, u);
    forall v | v in t.queued ensures Anchored(t, v) || Gone(t, v) {
      AnchorsRemain(s, t, v);
    }
  }

  lemma EnqueueKeeps(s: State, m: Copy)
    requires Inv(s) && m.user in s.requested && m.attempts <= m.failures && m.attempts < MAX_ATTEMPTS
    requires m.place in {Work, Retry}
    ensures Inv(Enqueue(s, m)) && Stays(Enqueue(s, m), m.user, s.nextCopy)
  {
    var t := Enqueue(s, m);
    assert s.nextCopy !in s.copies;
    forall c: nat | c < |t.consumers| ensures !Retiring(t.consumers, c, s.nextCopy) {
      assert ConsumerOk(s, s.consumers[c]);
    }
    assert Stays(t, m.user, s.nextCopy);
    forall v | v in t.queued ensures Anchored(t, v) || Gone(t, v) {
      AnchorsRemain(s, t, v);
    }
  }

  lemma MoveKeeps(s: State, id: nat, place: Place)
    requires Inv(s) && id in s.copies && s.copies[id].place != Dead && !Held(s, id)
    requires place == Dead ==> s.copies[id].failures >= MAX_ATTEMPTS
    ensures Inv(Move(s, id, place))
  {
    var t := Move(s, id, place);
    forall c | 0 <= c < |t.consumers| ensures ConsumerOk(t, t.consumers[c]) {
      assert ConsumerOk(s, s.consumers[c]);
      assert !Holds(s.consumers, c, id);
    }
    forall v | v in t.queued ensures Anchored(t, v) || Gone(t, v) {
      AnchorsRemain(s, t, v);
    }
  }

  lemma FailureCountedKeeps(s: State, id: nat)
    requires Inv(s) && id in s.copies
    ensures Inv(CountFailure(s, id))
  {
    var t := CountFailure(s, id);
    forall c | 0 <= c < |t.consumers| ensures ConsumerOk(t, t.consumers[c]) {
      assert ConsumerOk(s, s.consumers[c]);
    }
    forall v | v in t.queued ensures Anchored(t, v) || Gone(t, v) {
      AnchorsRemain(s, t, v);
    }
  }

  /** A message may be dropped when another one stays or its deletion has been applied. */
  lemma RemoveKeeps(s: State, id: nat)
    requires Inv(s) && id in s.copies && !Held(s, id)
    requires Gone(s, s.copies[id].user) || exists other :: other != id && Stays(s, s.copies[id].user, other)
    ensures Inv(Remove(s, id))
  {
    var t := Remove(s, id);
    forall c | 0 <= c < |t.consumers| ensures ConsumerOk(t, t.consumers[c]) {
      assert ConsumerOk(s, s.consumers[c]);
      assert !Holds(s.consumers, c, id);
    }
    forall v | v in t.queued ensures Anchored(t, v) || Gone(t, v) {
      if !Gone(s, v) {
        var other :| Stays(s, v, other) && other != id;
        forall c: nat | c < |t.consumers| ensures !Retiring(t.consumers, c, other) {
          assert !Retiring(s.consumers, c, other);
        }
        assert Stays(t, v, other);
      }
    }
  }

  lemma SetRequestKeeps(s: State, q: nat, pc: Request)
    requires Inv(s) && q < |s.requests| && RequestOk(s, pc)
    ensures Inv(SetRequest(s, q, pc))
  {
    var t := SetRequest(s, q, pc);
    forall v | v in t.queued ensures Anchored(t, v) || Gone(t, v) {
      AnchorsRemain(s, t, v);
    }
  }

  lemma SetPassKeeps(s: State, r: nat, pc: Pass)
    requires Inv(s) && r < |s.passes| && PassOk(s, pc)
    ensures Inv(SetPass(s, r, pc))
  {
    var t := SetPass(s, r, pc);
    forall v | v in t.queued ensures Anchored(t, v) || Gone(t, v) {
      AnchorsRemain(s, t, v);
    }
  }

  lemma SetConsumerKeeps(s: State, c: nat, pc: Consumer)
    requires Inv(s) && c < |s.consumers| && ConsumerOk(s, pc)
    requires pc.Handling? && pc.held ==> forall b: nat :: Holds(s.consumers, b, pc.delivery) ==> b == c
    requires pc.Handling? && pc.held && pc.stage == AckRetried ==>
               exists other :: other != pc.delivery && Stays(s, pc.user, other)
    ensures Inv(SetConsumer(s, c, pc))
  {
    var t := SetConsumer(s, c, pc);
    forall b: nat, d: nat, id | Holds(t.consumers, b, id) && Holds(t.consumers, d, id) ensures b == d {
      if b != c { assert Holds(s.consumers, b, id); }
      if d != c { assert Holds(s.consumers, d, id); }
    }
    forall v | v in t.queued ensures Anchored(t, v) || Gone(t, v) {
      if !Gone(s, v) {
        var id :| Stays(s, v, id) && (pc.Handling? && pc.held && pc.stage == AckRetried ==> id != pc.delivery);
        forall b: nat | b < |t.consumers| ensures !Retiring(t.consumers, b, id) {
          assert !Retiring(s.consumers, b, id);
        }
        assert Stays(t, v, id);
      }
    }
  }

  // The steps, each a composition of effects.

  lemma FailHandlingKeeps(s: State, c: nat)
    requires Inv(s) && c < |s.consumers| && s.consumers[c].Handling?
    ensures Inv(FailHandling(s, c))
  {
    var pc := s.consumers[c];
    assert ConsumerOk(s, pc);
    if pc.held {
      assert Holds(s.consumers, c, pc.delivery);
      FailureCountedKeeps(s, pc.delivery);
    }
    var t := if pc.held then CountFailure(s, pc.delivery) else s;
    assert Inv(t);
    assert pc.held ==> t.copies[pc.delivery].failures >= pc.attempts by { if pc.held { assert CopyOk(s, pc.delivery); } }
    var next := pc.(stage := if pc.attempts >= MAX_ATTEMPTS then DeadLetter else Republish);
    assert ConsumerOk(t, next);
    SetConsumerKeeps(t, c, next);
  }

  lemma HandlerKeeps(s: State, c: nat, o: Outcome)
    requires Inv(s) && Enabled(s, Advance(c, o))
    requires s.consumers[c].stage in {Revoke, Check, Delete, Finish}
    ensures Inv(AdvanceConsumer(s, c, o))
  {
    var pc := s.consumers[c];
    var u := pc.user;
    assert ConsumerOk(s, pc);
    var t := match pc.stage
             case Revoke => if o == Failed then s else RevokeSessions(s, u)
             case Delete => if o == Failed then s else DeleteUser(s, u)
             case Finish => if o == Failed then s else FinishUserDeletion(s, u)
             case _ => s;
    assert Inv(t) by {
      match pc.stage
      case Revoke => RevokeKeeps(s, u);
      case Delete => DeleteUserKeeps(s, u);
      case Finish => FinishKeeps(s, u);
      case _ =>
    }
    var next := match pc.stage
                case Revoke => if o == Done then Delete else Check
                case Finish => Ack
                case _ => Finish;
    if pc.stage == Revoke || (o == Done && (pc.stage == Check ==> u !in s.users)) {
      SetConsumerStage(t, c, next);
    } else {
      FailHandlingKeeps(t, c);
    }
  }

  /** Moving on within one handling. */
  lemma SetConsumerStage(s: State, c: nat, stage: Stage)
    requires Inv(s) && c < |s.consumers| && s.consumers[c].Handling?
    requires stage in {Delete, Check, Finish, Ack, Requeue}
    requires ConsumerOk(s, s.consumers[c].(stage := stage))
    ensures Inv(SetConsumer(s, c, s.consumers[c].(stage := stage)))
  {
    var pc := s.consumers[c];
    if pc.held { assert Holds(s.consumers, c, pc.delivery); }
    SetConsumerKeeps(s, c, pc.(stage := stage));
  }

  lemma RepublishKeeps(s: State, c: nat, o: Outcome)
    requires Inv(s) && Enabled(s, Advance(c, o)) && s.consumers[c].stage == Republish
    ensures Inv(AdvanceConsumer(s, c, o))
  {
    var pc := s.consumers[c];
    assert ConsumerOk(s, pc);
    if o != Failed && pc.held {
      assert Holds(s.consumers, c, pc.delivery) && CopyOk(s, pc.delivery);
      var m := Copy(pc.user, pc.attempts, s.copies[pc.delivery].failures, Retry);
      var t := Enqueue(s, m);
      EnqueueKeeps(s, m);
      assert Stays(t, pc.user, s.nextCopy) && s.nextCopy != pc.delivery;
      var next := pc.(stage := if o == Done then AckRetried else Requeue);
      assert ConsumerOk(t, next);
      SetConsumerKeeps(t, c, next);
    } else {
      SetConsumerStage(s, c, Requeue);
    }
  }

  /** The consumer's answer to the broker: ack, requeue or reject. */
  lemma ReleaseKeeps(s: State, c: nat, o: Outcome)
    requires Inv(s) && Enabled(s, Advance(c, o))
    requires s.consumers[c].stage in {Requeue, DeadLetter, Ack, AckRetried}
    ensures Inv(AdvanceConsumer(s, c, o))
  {
    var pc := s.consumers[c];
    assert ConsumerOk(s, pc);
    SetConsumerKeeps(s, c, Waiting);
    if o == Done && pc.held {
      var t := SetConsumer(s, c, Waiting);
      var id := pc.delivery;
      assert Holds(s.consumers, c, id);
      forall b: nat | b < |t.consumers| ensures !Holds(t.consumers, b, id) {
        if Holds(t.consumers, b, id) { assert Holds(s.consumers, b, id); }
      }
      match pc.stage
      case Requeue => MoveKeeps(t, id, Work);
      case DeadLetter => MoveKeeps(t, id, Dead);
      case Ack => RemoveKeeps(t, id);
      case AckRetried =>
        assert Retiring(s.consumers, c, id) && CopyOk(s, id);
        if !Gone(s, pc.user) {
          var other :| Stays(s, pc.user, other);
          forall b: nat | b < |t.consumers| ensures !Retiring(t.consumers, b, other) {
            assert !Retiring(s.consumers, b, other);
          }
          assert Stays(t, pc.user, other);
        }
        RemoveKeeps(t, id);
    }
  }

  lemma RequestStepKeeps(s: State, a: Action)
    requires Inv(s) && Enabled(s, a)
    requires a.Ask? || a.DropTokens? || a.Deny? || a.QueueJob? || a.NoteQueued? || a.EndRequest?
    ensures Inv(Apply(s, a))
  {
    assert RequestOk(s, s.requests[a.q]);
    match a
    case Ask(q, u, o) =>
      RequestKeeps(s, u);
      if o == Done && u in s.users { SetRequestKeeps(RequestUserDeletion(s, u), q, DroppingTokens(u)); }
    case DropTokens(q) => SetRequestKeeps(s, q, Denying(s.requests[q].user));
    case Deny(q, o) =>
      var u := s.requests[q].user;
      RevokeKeeps(s, u);
      SetRequestKeeps(if o == Failed then s else RevokeSessions(s, u), q, Publishing(u, false));
    case QueueJob(q, o) =>
      var pc := s.requests[q];
      EnqueueKeeps(s, Copy(pc.user, 0, 0, Work));
      var t := if o == Failed then s else Enqueue(s, Copy(pc.user, 0, 0, Work));
      SetRequestKeeps(t, q, if o == Done then Marking(pc.user) else if pc.again then NoRequest else Publishing(pc.user, true));
    case NoteQueued(q, o) =>
      MarkPublishedKeeps(s, s.requests[q].user);
      SetRequestKeeps(if o == Failed then s else MarkDeletionPublished(s, s.requests[q].user), q, NoRequest);
    case EndRequest(q) => SetRequestKeeps(s, q, NoRequest);
  }

  lemma PassStepKeeps(s: State, a: Action)
    requires Inv(s) && Enabled(s, a)
    requires a.StartPass? || a.RelayJob? || a.NoteRelayed? || a.EndPass?
    requires a.StartPass? ==> IsBatch(s, a.batch)
    ensures Inv(Apply(s, a))
  {
    assert PassOk(s, s.passes[a.r]);
    match a
    case StartPass(r, batch) =>
      assert forall u :: u in batch ==> u in Pending(s);
      SetPassKeeps(s, r, Queueing(batch, false));
    case RelayJob(r, o) =>
      var pc := s.passes[r];
      assert pc.rest[0] in Elements(pc.rest);
      EnqueueKeeps(s, Copy(pc.rest[0], 0, 0, Work));
      var t := if o == Failed then s else Enqueue(s, Copy(pc.rest[0], 0, 0, Work));
      SetPassKeeps(t, r, if o == Done then Noting(pc.rest) else if pc.again then NoPass else Queueing(pc.rest, true));
    case NoteRelayed(r, o) =>
      var rest := s.passes[r].rest;
      MarkPublishedKeeps(s, rest[0]);
      assert forall u :: u in rest[1..] ==> u in Elements(rest);
      SetPassKeeps(if o == Failed then s else MarkDeletionPublished(s, rest[0]), r, if o == Done then NextRow(rest) else NoPass);
    case EndPass(r) => SetPassKeeps(s, r, NoPass);
  }

  lemma DeliverKeeps(s: State, c: nat, id: nat)
    requires Inv(s) && c < |s.consumers| && id in s.copies && s.copies[id].place == Work
    ensures Inv(SetConsumer(Move(s, id, Unacked), c, Handling(id, s.copies[id].user, s.copies[id].attempts + 1, true, Revoke)))
  {
    var t := Move(s, id, Unacked);
    WorkIsUnheld(s, id);
    assert Inv(t) by { MoveKeeps(s, id, Unacked); }
    var pc := Handling(id, s.copies[id].user, s.copies[id].attempts + 1, true, Revoke);
    assert ConsumerOk(t, pc) by { assert CopyOk(s, id); }
    SetConsumerKeeps(t, c, pc);
  }

  lemma WorkIsUnheld(s: State, id: nat)
    requires Inv(s) && id in s.copies && s.copies[id].place != Unacked
    ensures forall b: nat :: !Holds(s.consumers, b, id)
  {
    forall b: nat | b < |s.consumers| ensures !Holds(s.consumers, b, id) {
      assert ConsumerOk(s, s.consumers[b]);
    }
  }

  lemma AdvanceKeeps(s: State, c: nat, o: Outcome)
    requires Inv(s) && Enabled(s, Advance(c, o))
    ensures Inv(AdvanceConsumer(s, c, o))
  {
    var stage := s.consumers[c].stage;
    if stage in {Revoke, Check, Delete, Finish} { HandlerKeeps(s, c, o); }
    else if stage == Republish { RepublishKeeps(s, c, o); }
    else { ReleaseKeeps(s, c, o); }
  }

  /** A consumer stops, or its channel drops while it goes on. */
  lemma LetGoKeeps(s: State, c: nat, pc: Consumer)
    requires Inv(s) && c < |s.consumers|
    requires pc == Waiting || (s.consumers[c].Handling? && pc == s.consumers[c].(held := false))
    ensures Inv(SetConsumer(s, c, pc))
  {
    assert ConsumerOk(s, s.consumers[c]);
    SetConsumerKeeps(s, c, pc);
  }

  lemma ConsumerStepKeeps(s: State, a: Action)
    requires Inv(s) && Enabled(s, a)
    requires a.Deliver? || a.Advance? || a.LoseChannel? || a.Crash?
    ensures Inv(Apply(s, a))
  {
    var t := Apply(s, a);
    match a
    case Deliver(c, id) =>
      DeliverKeeps(s, c, id);
      assert t == SetConsumer(Move(s, id, Unacked), c, Handling(id, s.copies[id].user, s.copies[id].attempts + 1, true, Revoke));
    case Advance(c, o) =>
      AdvanceKeeps(s, c, o);
      assert t == AdvanceConsumer(s, c, o);
    case LoseChannel(c) => LetGoKeeps(s, c, s.consumers[c].(held := false));
    case Crash(c) => LetGoKeeps(s, c, Waiting);
  }

  lemma OtherStepKeeps(s: State, a: Action)
    requires Inv(s) && Enabled(s, a)
    requires a.CreateUser? || a.RollBackSignUp? || a.Expire? || a.Recover?
    ensures Inv(Apply(s, a))
  {
    match a
    case CreateUser(u) =>
      var t := Apply(s, a);
      forall v | v in t.queued ensures Anchored(t, v) || Gone(t, v) {
        AnchorsRemain(s, t, v);
      }
    case RollBackSignUp(u) => DeleteUserKeeps(s, u);
    case Expire(id) =>
      assert forall c: nat :: c < |s.consumers| ==> ConsumerOk(s, s.consumers[c]);
      MoveKeeps(s, id, Work);
    case Recover(id) => MoveKeeps(s, id, Work);
  }

  /** Every step of every process, failing or not, keeps the invariant. */
  lemma StepKeeps(s: State, t: State)
    requires Inv(s) && Next(s, t)
    ensures Inv(t)
  {
    var a :| Enabled(s, a) && (a.StartPass? ==> IsBatch(s, a.batch)) && t == Apply(s, a);
    if a.Ask? || a.DropTokens? || a.Deny? || a.QueueJob? || a.NoteQueued? || a.EndRequest? {
      RequestStepKeeps(s, a);
    } else if a.StartPass? || a.RelayJob? || a.NoteRelayed? || a.EndPass? {
      PassStepKeeps(s, a);
    } else if a.Deliver? || a.Advance? || a.LoseChannel? || a.Crash? {
      ConsumerStepKeeps(s, a);
    } else {
      OtherStepKeeps(s, a);
    }
  }

  lemma {:induction false} RunKeeps(run: seq<State>, i: nat)
    requires IsRun(run) && i < |run|
    ensures Inv(run[i])
  {
    if i > 0 {
      RunKeeps(run, i - 1);
      assert StepAt(run, i - 1);
      StepKeeps(run[i - 1], run[i]);
    }
  }

  // ---------------------------------------------------------------------------
  // Main results
  // ---------------------------------------------------------------------------

  /**
    No recorded deletion is ever stranded. At every point of every run:
    a marked account has an outbox row, so the relay will come for it; an outbox
    row marked published still has a job in one of the broker's queues; once the
    broker has accepted a job for an account, it holds one until the deletion has
    been applied in full.
  */
  lemma NeverStranded(run: seq<State>, i: nat)
    requires IsRun(run) && i < |run|
    ensures var s := run[i];
            && (forall u :: u in s.users && s.users[u] ==> u in s.outbox)
            && (forall u :: u in s.outbox && s.outbox[u].published ==>
                  exists id :: id in s.copies && s.copies[id].user == u)
            && (forall u :: u in s.queued ==>
                  (u !in s.users && u !in s.outbox) || exists id :: id in s.copies && s.copies[id].user == u)
  {
    RunKeeps(run, i);
    var s := run[i];
    forall u | u in s.queued
      ensures Gone(s, u) || exists id :: id in s.copies && s.copies[id].user == u
    {
      if Anchored(s, u) {
        var id :| Stays(s, u, id);
      }
    }
  }

  /**
    The protocol deletes nobody else, gives up on nobody early and revokes before
    it deletes: no job exists for an account that is live and unmarked, a job is
    dead-lettered only after twenty failed handlings of it and of the
    messages it descends from, and an account with a recorded deletion whose row
    is gone had its sessions revoked.
  */
  lemma NeverMisapplied(run: seq<State>, i: nat)
    requires IsRun(run) && i < |run|
    ensures var s := run[i];
            && (forall id :: id in s.copies && s.copies[id].user in s.users ==> s.users[s.copies[id].user])
            && (forall id :: id in s.copies && s.copies[id].place == Dead ==> s.copies[id].failures >= 20)
            && (forall u :: u in s.requested && u !in s.users ==> u in s.denied)
  {
    RunKeeps(run, i);
    var s := run[i];
    forall id | id in s.copies ensures CopyOk(s, id) {}
  }

  /** No step brings back an account whose deletion has been applied in full. */
  lemma StepKeepsGone(s: State, t: State, u: UserId)
    requires Inv(s) && Next(s, t) && Gone(s, u)
    ensures Gone(t, u)
  {
    var a :| Enabled(s, a) && (a.StartPass? ==> IsBatch(s, a.batch)) && t == Apply(s, a);
    RowsComeFromAccounts(s, a);
  }

  /** Account rows only appear under fresh ids, and outbox rows only for accounts that have a row. */
  lemma RowsComeFromAccounts(s: State, a: Action)
    requires Enabled(s, a)
    ensures var t := Apply(s, a);
            && s.requested <= t.requested
            && (forall u :: u in t.users ==> u in s.users || u !in s.known)
            && t.outbox.Keys <= s.outbox.Keys + s.users.Keys
  {
    match a
    case Advance(c, o) => AdvanceOnlyRemoves(s, c, o);
    case Ask(_, _, _) =>
    case _ =>
  }

  lemma AdvanceOnlyRemoves(s: State, c: nat, o: Outcome)
    requires Enabled(s, Advance(c, o))
    ensures var t := AdvanceConsumer(s, c, o);
            t.users.Keys <= s.users.Keys && t.outbox.Keys <= s.outbox.Keys && t.requested == s.requested
  {
    match s.consumers[c].stage
    case Revoke =>
    case Check =>
    case Delete =>
    case Finish =>
    case Republish =>
    case _ =>
  }

  /** A deletion applied in full stays applied: the account never comes back and is never recorded again. */
  lemma {:induction false} AppliedForGood(run: seq<State>, i: nat, j: nat, u: UserId)
    requires IsRun(run) && i <= j < |run| && Gone(run[i], u)
    ensures Gone(run[j], u)
  {
    if i < j {
      AppliedForGood(run, i, j - 1, u);
      StaysGone(run, j - 1, u);
    }
  }

  lemma StaysGone(run: seq<State>, i: nat, u: UserId)
    requires IsRun(run) && i + 1 < |run| && Gone(run[i], u)
    ensures Gone(run[i + 1], u)
  {
    RunKeeps(run, i);
    assert StepAt(run, i);
    StepKeepsGone(run[i], run[i + 1], u);
  }
}
