/**
  The code of the deletion protocol, run without interruption: DeleteAccount,
  Relay.Drain and the handling of one delivery by Consume and Worker.Handle.
  How the calls go is a parameter, and the contracts say what the method makes of
  it. Valid() says that everything done so far is a run of the protocol, so all
  that is proved of runs holds.
*/
module DeletionService {
  import opened Common
  import opened Deletion

  /** How the calls of one DeleteAccount go: both publishes, the second of which follows a failed first. */
  datatype RequestAnswers = RequestAnswers(mark: Outcome, deny: Outcome, first: Outcome, second: Outcome, note: Outcome)

  /** How the calls about one row of Drain go. */
  datatype RowAnswers = RowAnswers(first: Outcome, second: Outcome, note: Outcome)

  /** How the calls about one delivery go. */
  datatype HandleAnswers = HandleAnswers(revoke: Outcome, check: Outcome, delete: Outcome, finish: Outcome)
  datatype DeliveryAnswers = DeliveryAnswers(handle: HandleAnswers, republish: Outcome, answer: Outcome)

  function Least(a: nat, b: nat): nat { if a < b then a else b }

  /** The broker confirmed a publish, at the first or the second try. */
  predicate Confirmed(first: Outcome, second: Outcome) { first == Done || second == Done }

  /** Drain gets past the row. */
  predicate PastRow(a: RowAnswers) { Confirmed(a.first, a.second) && a.note == Done }

  /** The worker gets through: it revokes and deletes, or cannot revoke and learns that the row is gone, and then clears the outbox. */
  predicate GetsThrough(a: HandleAnswers, rowThere: bool) {
    (if a.revoke == Done then a.delete == Done else a.check == Done && !rowThere) && a.finish == Done
  }

  /** `batch` holds unpublished rows, oldest first, and `rows` the other ones, none of them older. */
  ghost predicate OldestSoFar(s: State, batch: seq<UserId>, rows: set<UserId>) {
    && rows <= Pending(s) && |batch| + |rows| == |Pending(s)|
    && (forall u :: u in Pending(s) ==> u in rows || u in batch)
    && (forall i, j :: 0 <= i < j < |batch| ==> batch[i] != batch[j])
    && (forall i :: 0 <= i < |batch| ==> batch[i] in Pending(s) && batch[i] !in rows)
    && (forall i, j :: 0 <= i < j < |batch| ==> s.outbox[batch[i]].requestedAt <= s.outbox[batch[j]].requestedAt)
    && (forall i, u :: 0 <= i < |batch| && u in rows ==> s.outbox[batch[i]].requestedAt <= s.outbox[u].requestedAt)
  }

  lemma ExtendOldest(s: State, batch: seq<UserId>, rows: set<UserId>, first: UserId)
    requires OldestSoFar(s, batch, rows) && first in rows
    requires forall u :: u in rows ==> s.outbox[first].requestedAt <= s.outbox[u].requestedAt
    ensures OldestSoFar(s, batch + [first], rows - {first})
  {
    var longer := batch + [first];
    forall u | u in Pending(s) ensures u in rows - {first} || u in longer {
      assert first == longer[|batch|];
      if u in batch { var k :| 0 <= k < |batch| && batch[k] == u; assert longer[k] == u; }
    }
  }

  /** What the calls after the first statement of DeleteAccount may change, for the account u of slot q. */
  ghost predicate Follows(s: State, t: State, q: nat, u: UserId) {
    && t.users == s.users && t.passes == s.passes && t.consumers == s.consumers && t.requested == s.requested
    && |t.requests| == |s.requests| && (forall i :: 0 <= i < |s.requests| && i != q ==> t.requests[i] == s.requests[i])
    && t.outbox.Keys == s.outbox.Keys && (forall v :: v in s.outbox && v != u ==> t.outbox[v] == s.outbox[v])
    && s.copies.Keys <= t.copies.Keys && (forall id :: id in s.copies ==> t.copies[id] == s.copies[id])
    && (forall id :: id in t.copies && id !in s.copies ==> t.copies[id].user == u)
  }

  lemma RequestStepFollows(s: State, a: Action)
    requires Enabled(s, a) && (a.DropTokens? || a.Deny? || a.QueueJob? || a.NoteQueued?)
    requires s.nextCopy !in s.copies
    ensures Follows(s, Apply(s, a), a.q, s.requests[a.q].user)
    ensures Apply(s, a).requests[a.q] ==
            match a
            case DropTokens(_) => Denying(s.requests[a.q].user)
            case Deny(_, _) => Publishing(s.requests[a.q].user, false)
            case QueueJob(_, o) =>
              if o == Done then Marking(s.requests[a.q].user)
              else if s.requests[a.q].again then NoRequest else Publishing(s.requests[a.q].user, true)
            case NoteQueued(_, _) => NoRequest
    ensures RequestStepDoes(s, Apply(s, a), a)
  {
    if a.QueueJob? && a.o != Failed {
      assert s.nextCopy in Apply(s, a).copies && Apply(s, a).copies[s.nextCopy].user == s.requests[a.q].user;
    }
  }

  /** What one call of a request achieves. */
  ghost predicate RequestStepDoes(s: State, t: State, a: Action)
    requires Enabled(s, a) && (a.DropTokens? || a.Deny? || a.QueueJob? || a.NoteQueued?)
  {
    var u := s.requests[a.q].user;
    && t.denied == (if a.Deny? && a.o != Failed then s.denied + {u} else s.denied)
    && (a.QueueJob? && a.o == Done ==> HasNewJob(s, t, u))
    && (u in s.outbox ==> u in t.outbox && (t.outbox[u].published <==> s.outbox[u].published || (a.NoteQueued? && a.o != Failed)))
  }

  lemma FollowsTrans(s: State, t: State, v: State, q: nat, u: UserId)
    requires Follows(s, t, q, u) && Follows(t, v, q, u)
    ensures Follows(s, v, q, u)
    ensures HasNewJob(s, t, u) || HasNewJob(t, v, u) ==> HasNewJob(s, v, u)
  {
    if HasNewJob(s, t, u) {
      var id :| id in t.copies && id !in s.copies && t.copies[id].user == u;
      assert id in v.copies && v.copies[id] == t.copies[id];
    } else if HasNewJob(t, v, u) {
      var id :| id in v.copies && id !in t.copies && v.copies[id].user == u;
      assert id !in s.copies;
    }
  }

  /** What a relay pass in slot r may change while it works on the rows `us`. */
  ghost predicate Relays(s: State, t: State, r: nat, us: set<UserId>) {
    && t.users == s.users && t.requests == s.requests && t.consumers == s.consumers && t.requested == s.requested
    && |t.passes| == |s.passes| && (forall i :: 0 <= i < |s.passes| && i != r ==> t.passes[i] == s.passes[i])
    && t.outbox.Keys == s.outbox.Keys && (forall v :: v in s.outbox && v !in us ==> t.outbox[v] == s.outbox[v])
    && (forall v :: v in s.outbox ==> t.outbox[v].requestedAt == s.outbox[v].requestedAt)
    && s.copies.Keys <= t.copies.Keys && (forall id :: id in s.copies ==> t.copies[id] == s.copies[id])
    && (forall id :: id in t.copies && id !in s.copies ==> t.copies[id].user in us && t.copies[id].place == Work && t.copies[id].attempts == 0)
  }

  /** One publish of the row at the head of pass r. */
  ghost predicate Published(s: State, t: State, r: nat, rest: seq<UserId>, again: bool, o: Outcome) {
    && rest != [] && r < |t.passes| && Relays(s, t, r, {rest[0]}) && t.outbox == s.outbox
    && t.passes[r] == (if o == Done then Noting(rest) else if again then NoPass else Queueing(rest, true))
    && (o == Done ==> HasNewJob(s, t, rest[0]))
  }

  ghost predicate HasNewJob(s: State, t: State, u: UserId) {
    exists id :: id in t.copies && id !in s.copies && t.copies[id].user == u
  }

  lemma RelayJobPublishes(s: State, r: nat, o: Outcome)
    requires Enabled(s, RelayJob(r, o)) && s.nextCopy !in s.copies
    ensures Published(s, Apply(s, RelayJob(r, o)), r, s.passes[r].rest, s.passes[r].again, o)
  {
    if o == Done {
      assert s.nextCopy in Apply(s, RelayJob(r, o)).copies;
    }
  }

  lemma JobStays(s: State, t: State, v: State, u: UserId)
    requires s.copies.Keys <= t.copies.Keys && HasNewJob(t, v, u)
    ensures HasNewJob(s, v, u)
  {
    var id :| id in v.copies && id !in t.copies && v.copies[id].user == u;
  }

  lemma NoteRelayedRelays(s: State, r: nat, o: Outcome)
    requires Enabled(s, NoteRelayed(r, o)) && s.passes[r].rest[0] in s.outbox
    ensures var rest := s.passes[r].rest;
            var t := Apply(s, NoteRelayed(r, o));
            && Relays(s, t, r, {rest[0]}) && t.copies == s.copies
            && (o == Done ==> t.outbox[rest[0]].published)
            && t.passes[r] == if o == Done then NextRow(rest) else NoPass
  {
  }

  /** The first n rows of the batch are published, each with a new job, and the rows behind are untouched. */
  ghost predicate Drained(s: State, t: State, r: nat, rows: seq<UserId>, n: nat) {
    && Relays(s, t, r, Elements(rows)) && n <= |rows|
    && (forall i :: 0 <= i < |rows| ==> rows[i] in s.outbox && rows[i] in t.outbox)
    && (forall i :: 0 <= i < n ==> t.outbox[rows[i]].published && HasNewJob(s, t, rows[i]))
    && (forall i :: n < i < |rows| ==> t.outbox[rows[i]] == s.outbox[rows[i]])
  }

  lemma DrainOne(s: State, t: State, v: State, r: nat, rows: seq<UserId>, n: nat)
    requires Drained(s, t, r, rows, n) && n < |rows| && Relays(t, v, r, {rows[n]})
    requires forall i, j :: 0 <= i < j < |rows| ==> rows[i] != rows[j]
    ensures Drained(s, v, r, rows, n)
    ensures v.outbox[rows[n]].published && HasNewJob(t, v, rows[n]) ==> Drained(s, v, r, rows, n + 1)
  {
    RelaysTrans(s, t, v, r, rows[n], Elements(rows));
    forall i | 0 <= i < n ensures v.outbox[rows[i]].published && HasNewJob(s, v, rows[i]) {
      assert HasNewJob(s, t, rows[i]);
      var id :| id in t.copies && id !in s.copies && t.copies[id].user == rows[i];
      assert id in v.copies;
    }
    if HasNewJob(t, v, rows[n]) {
      var id :| id in v.copies && id !in t.copies && v.copies[id].user == rows[n];
      assert id !in s.copies;
      assert HasNewJob(s, v, rows[n]);
    }
  }

  lemma RelaysTrans(s: State, t: State, v: State, r: nat, u: UserId, us: set<UserId>)
    requires Relays(s, t, r, us) && Relays(t, v, r, {u}) && u in us
    ensures Relays(s, v, r, us)
  {
  }

  /**
    What handling delivery id of account u in slot c may change, up to the answer
    to the broker. The message itself only has its failed handlings counted.
  */
  ghost predicate Handles(s: State, t: State, c: nat, id: nat, u: UserId) {
    && t.requests == s.requests && t.passes == s.passes && t.requested == s.requested && t.nextCopy == s.nextCopy
    && |t.consumers| == |s.consumers| && (forall i :: 0 <= i < |s.consumers| && i != c ==> t.consumers[i] == s.consumers[i])
    && (t.users == s.users || t.users == s.users - {u})
    && (t.outbox == s.outbox || (t.outbox == s.outbox - {u} && u !in t.users))
    && s.denied <= t.denied <= s.denied + {u}
    && t.copies.Keys == s.copies.Keys && (forall other :: other in s.copies && other != id ==> t.copies[other] == s.copies[other])
    && (id in s.copies ==> t.copies[id].(failures := 0) == s.copies[id].(failures := 0))
  }

  lemma HandlerStepHandles(s: State, c: nat, o: Outcome)
    requires Inv(s) && Enabled(s, Advance(c, o)) && s.consumers[c].held
    requires s.consumers[c].stage in {Revoke, Check, Delete, Finish}
    ensures var pc := s.consumers[c];
            var t := AdvanceConsumer(s, c, o);
            && Handles(s, t, c, pc.delivery, pc.user)
            && t.consumers[c] == pc.(stage := NextStage(s, c, o))
            && t.users == (if pc.stage == Delete && o != Failed then s.users - {pc.user} else s.users)
            && (pc.stage == Finish && o == Done ==> pc.user !in t.outbox)
  {
    assert ConsumerOk(s, s.consumers[c]);
  }

  /** The stage after a call of the handler. */
  function NextStage(s: State, c: nat, o: Outcome): Stage
    requires c < |s.consumers| && s.consumers[c].Handling?
  {
    var pc := s.consumers[c];
    var failed := if pc.attempts >= MAX_ATTEMPTS then DeadLetter else Republish;
    match pc.stage
    case Revoke => if o == Done then Delete else Check
    case Check => if o == Done && pc.user !in s.users then Finish else failed
    case Delete => if o == Done then Finish else failed
    case _ => if o == Done then Ack else failed
  }

  /** What becomes of the message of `pc` by its answer to the broker, if that gets through. */
  ghost predicate Answered(s: State, t: State, pc: Consumer, o: Outcome)
    requires pc.Handling?
  {
    && t.users == s.users && t.outbox == s.outbox && t.requested == s.requested && pc.delivery in s.copies
    && var m := s.copies[pc.delivery];
       t.copies == if o != Done then s.copies
                   else if pc.stage == Requeue then s.copies[pc.delivery := m.(place := Work)]
                   else if pc.stage == DeadLetter then s.copies[pc.delivery := m.(place := Dead)]
                   else s.copies - {pc.delivery}
  }

  /** The answer concerns no other message, so a retry that was republished stays. */
  lemma AnswerOutcome(s: State, t: State, pc: Consumer, o: Outcome)
    requires pc.Handling? && Answered(s, t, pc, o) && s.copies[pc.delivery].place == Unacked
    ensures forall attempts :: HasRetry(s, pc.user, attempts) ==> HasRetry(t, pc.user, attempts)
    ensures forall other :: other != pc.delivery && other in s.copies ==> other in t.copies && t.copies[other] == s.copies[other]
    ensures pc.delivery in t.copies ==> t.copies[pc.delivery].(place := Unacked) == s.copies[pc.delivery]
  {
    forall attempts | HasRetry(s, pc.user, attempts) ensures HasRetry(t, pc.user, attempts) {
      var id :| id in s.copies && s.copies[id].user == pc.user && s.copies[id].attempts == attempts && s.copies[id].place == Retry;
      assert id != pc.delivery && id in t.copies && t.copies[id] == s.copies[id];
    }
  }

  lemma AnswerIsOwn(s: State, c: nat, o: Outcome)
    requires Enabled(s, Advance(c, o)) && s.consumers[c].held && s.consumers[c].stage in {Requeue, DeadLetter, Ack, AckRetried}
    ensures Answered(s, AdvanceConsumer(s, c, o), s.consumers[c], o)
    ensures AdvanceConsumer(s, c, o).consumers == s.consumers[c := Waiting]
  {
  }

  lemma HandlesTrans(s: State, t: State, v: State, c: nat, id: nat, u: UserId)
    requires Handles(s, t, c, id, u) && Handles(t, v, c, id, u)
    ensures Handles(s, v, c, id, u)
  {
  }

  class System {
    var s: State
    ghost var trace: seq<State>

    ghost predicate Valid()
      reads this
    {
      IsRun(trace) && s == trace[|trace| - 1]
    }

    constructor (requests: nat, passes: nat, consumers: nat)
      ensures Valid()
      ensures |s.requests| == requests && |s.passes| == passes && |s.consumers| == consumers
    {
      var init := State(0, map[], map[], map[], 0,
                        seq(requests, _ => NoRequest), seq(passes, _ => NoPass), seq(consumers, _ => Waiting), {}, {}, {}, {});
      s := init;
      trace := [init];
    }

    method Do(a: Action)
      requires Valid() && Enabled(s, a) && (a.StartPass? ==> IsBatch(s, a.batch))
      modifies this
      ensures Valid() && s == Apply(old(s), a) && Inv(old(s)) && Inv(s)
    {
      RunKeeps(trace, |trace| - 1);
      assert Next(s, Apply(s, a));
      StepKeeps(s, Apply(s, a));
      s := Apply(s, a);
      ghost var before := trace;
      trace := trace + [s];
      forall i: nat | i + 1 < |trace| ensures StepAt(trace, i) {
        if i + 1 < |before| { assert StepAt(before, i); }
      }
    }

    /** PendingDeletions: the oldest unpublished rows. */
    method PendingDeletions() returns (batch: seq<UserId>)
      ensures IsBatch(s, batch)
    {
      batch := [];
      var rows := Pending(s);
      while rows != {} && |batch| < RELAY_BATCH
        invariant OldestSoFar(s, batch, rows) && |batch| <= RELAY_BATCH
        decreases rows
      {
        var first := OldestOf(rows);
        ExtendOldest(s, batch, rows, first);
        batch := batch + [first];
        rows := rows - {first};
      }
    }

    method OldestOf(rows: set<UserId>) returns (first: UserId)
      requires rows != {} && rows <= Pending(s)
      ensures first in rows && forall u :: u in rows ==> s.outbox[first].requestedAt <= s.outbox[u].requestedAt
    {
      first :| first in rows;
      var rest := rows - {first};
      while rest != {}
        invariant rest <= rows && first in rows
        invariant forall u :: u in rows && u !in rest ==> s.outbox[first].requestedAt <= s.outbox[u].requestedAt
        decreases rest
      {
        var u :| u in rest;
        if s.outbox[u].requestedAt < s.outbox[first].requestedAt { first := u; }
        rest := rest - {u};
      }
    }

    method DoRequestStep(a: Action)
      requires Valid() && Enabled(s, a) && (a.DropTokens? || a.Deny? || a.QueueJob? || a.NoteQueued?)
      modifies this
      ensures Valid() && Follows(old(s), s, a.q, old(s).requests[a.q].user)
      ensures s.requests[a.q] ==
              match a
              case DropTokens(_) => Denying(old(s).requests[a.q].user)
              case Deny(_, _) => Publishing(old(s).requests[a.q].user, false)
              case QueueJob(_, o) =>
                if o == Done then Marking(old(s).requests[a.q].user)
                else if old(s).requests[a.q].again then NoRequest else Publishing(old(s).requests[a.q].user, true)
              case NoteQueued(_, _) => NoRequest
      ensures RequestStepDoes(old(s), s, a)
    {
      Do(a);
      FreshMessage(old(s));
      RequestStepFollows(old(s), a);
    }

    /** RequestUserDeletion, the one statement whose failure the caller hears of. */
    method RecordDeletion(q: nat, u: UserId, o: Outcome)
      requires Valid() && q < |s.requests| && s.requests[q].NoRequest?
      modifies this
      ensures Valid()
      ensures s == if o == Failed || u !in old(s).users then old(s)
                   else if o == Lost then RequestUserDeletion(old(s), u)
                   else SetRequest(RequestUserDeletion(old(s), u), q, DroppingTokens(u))
    {
      Do(Ask(q, u, o));
    }

    /** The publisher, which retries once on a fresh connection, and the note that the job is queued. */
    method QueueAndNote(q: nat, u: UserId, first: Outcome, second: Outcome, note: Outcome)
      requires Valid() && q < |s.requests| && s.requests[q] == Publishing(u, false) && u in s.outbox && !s.outbox[u].published
      modifies this
      ensures Valid() && Follows(old(s), s, q, u) && s.requests[q].NoRequest? && s.denied == old(s).denied
      ensures Confirmed(first, second) ==> HasNewJob(old(s), s, u)
      ensures s.outbox[u].published <==> Confirmed(first, second) && note != Failed
    {
      DoRequestStep(QueueJob(q, first));
      ghost var tried := s;
      if first != Done {
        DoRequestStep(QueueJob(q, second));
        FollowsTrans(old(s), tried, s, q, u);
        if second != Done { return; }
      }
      ghost var queued := s;
      DoRequestStep(NoteQueued(q, note));
      FollowsTrans(old(s), queued, s, q, u);
    }

    /**
      DeleteAccount. The caller is told of an error exactly when the first statement
      reports one; otherwise the deletion is certain: the account is already gone,
      or it is marked and recorded whatever becomes of the calls that follow. Its
      sessions are revoked and its job is queued and noted as far as those calls
      work. Nobody else's account, outbox row or jobs change.
    */
    method DeleteAccount(q: nat, u: UserId, a: RequestAnswers) returns (ok: bool)
      requires Valid() && q < |s.requests| && s.requests[q].NoRequest?
      modifies this
      ensures Valid() && q < |s.requests| && s.requests[q].NoRequest?
      ensures ok <==> a.mark == Done
      ensures u !in old(s).users || a.mark == Failed ==> s == old(s)
      ensures u in old(s).users && a.mark == Lost ==> s == RequestUserDeletion(old(s), u)
      ensures u in old(s).users && a.mark == Done ==> Follows(RequestUserDeletion(old(s), u), s, q, u)
      ensures u in old(s).users && a.mark != Failed ==> u in s.users && s.users[u] && u in s.outbox && u in s.requested
      ensures u in old(s).users && ok ==>
                && (u in s.denied <==> u in old(s).denied || a.deny != Failed)
                && (Confirmed(a.first, a.second) ==> HasNewJob(old(s), s, u))
                && (s.outbox[u].published <==> Confirmed(a.first, a.second) && a.note != Failed)
    {
      var known := u in s.users;
      RecordDeletion(q, u, a.mark);
      ok := a.mark == Done;
      if !ok || !known { return; }
      ghost var recorded := s;
      EndAccess(q, u, a.deny);
      ghost var denied := s;
      QueueAndNote(q, u, a.first, a.second, a.note);
      FollowsTrans(recorded, denied, s, q, u);
    }

    /** The refresh tokens and then the sessions, either of which may fail. */
    method EndAccess(q: nat, u: UserId, deny: Outcome)
      requires Valid() && q < |s.requests| && s.requests[q] == DroppingTokens(u)
      modifies this
      ensures Valid() && Follows(old(s), s, q, u) && s.requests[q] == Publishing(u, false)
      ensures s.denied == (if deny != Failed then old(s).denied + {u} else old(s).denied) && s.copies == old(s).copies && s.outbox == old(s).outbox
    {
      Do(DropTokens(q));
      Do(Deny(q, deny));
    }

    method Publish(r: nat, o: Outcome)
      requires Valid() && Enabled(s, RelayJob(r, o))
      modifies this
      ensures Valid() && Published(old(s), s, r, old(s).passes[r].rest, old(s).passes[r].again, o)
    {
      Do(RelayJob(r, o));
      FreshMessage(old(s));
      RelayJobPublishes(old(s), r, o);
    }

    method Note(r: nat, o: Outcome)
      requires Valid() && Enabled(s, NoteRelayed(r, o)) && s.passes[r].rest[0] in s.outbox
      modifies this
      ensures Valid() && Relays(old(s), s, r, {old(s).passes[r].rest[0]}) && s.copies == old(s).copies
      ensures s.passes[r] == if o == Done then NextRow(old(s).passes[r].rest) else NoPass
      ensures o == Done ==> s.outbox[old(s).passes[r].rest[0]].published
    {
      Do(NoteRelayed(r, o));
      NoteRelayedRelays(old(s), r, o);
    }

    /** The publisher's one or two tries for the row at the head of a pass. */
    method PublishRow(r: nat, rest: seq<UserId>, first: Outcome, second: Outcome) returns (ok: bool)
      requires Valid() && r < |s.passes| && rest != [] && s.passes[r] == Queueing(rest, false) && rest[0] in s.outbox
      modifies this
      ensures Valid() && Relays(old(s), s, r, {rest[0]}) && s.outbox == old(s).outbox
      ensures ok <==> Confirmed(first, second)
      ensures s.passes[r] == if ok then Noting(rest) else NoPass
      ensures ok ==> HasNewJob(old(s), s, rest[0])
    {
      Publish(r, first);
      ghost var tried := s;
      ok := first == Done;
      if first != Done {
        Publish(r, second);
        RelaysTrans(old(s), tried, s, r, rest[0], {rest[0]});
        ok := second == Done;
        if ok { JobStays(old(s), tried, s, rest[0]); }
      }
    }

    /** One round of Drain's loop: publish the row, then mark it. */
    method RelayRow(r: nat, rest: seq<UserId>, a: RowAnswers) returns (ok: bool)
      requires Valid() && r < |s.passes| && rest != [] && s.passes[r] == Queueing(rest, false) && rest[0] in s.outbox
      modifies this
      ensures Valid() && Relays(old(s), s, r, {rest[0]})
      ensures ok <==> PastRow(a)
      ensures s.passes[r] == if ok then NextRow(rest) else NoPass
      ensures ok ==> s.outbox[rest[0]].published && HasNewJob(old(s), s, rest[0])
    {
      ok := PublishRow(r, rest, a.first, a.second);
      if !ok { return; }
      ghost var queued := s;
      Note(r, a.note);
      RelaysTrans(old(s), queued, s, r, rest[0], {rest[0]});
      ok := a.note == Done;
    }

    /** The read that opens a pass; a failed one leaves nothing to do. */
    method ReadRows(r: nat, read: Outcome) returns (rows: seq<UserId>)
      requires Valid() && r < |s.passes| && s.passes[r].NoPass?
      modifies this
      ensures Valid() && Drained(old(s), s, r, rows, 0)
      ensures if read == Done then IsBatch(old(s), rows) else rows == [] && s == old(s)
      ensures r < |s.passes| && s.passes[r] == if rows == [] then NoPass else Queueing(rows, false)
    {
      rows := [];
      if read != Done { return; }
      rows := PendingDeletions();
      if rows != [] { Do(StartPass(r, rows)); }
    }

    /**
      Drain, with the answers about each row it comes to. If the read works it goes
      through the oldest unpublished rows, and through all of them unless the calls
      about one fail: n counts the rows before that one, which are marked published,
      each after the broker confirmed a job for it. Rows behind it, and everything
      else, stay as they are.
    */
    method Drain(r: nat, read: Outcome, answers: nat -> RowAnswers) returns (n: nat, ok: bool, batch: seq<UserId>)
      requires Valid() && r < |s.passes| && s.passes[r].NoPass?
      modifies this
      ensures Valid() && r < |s.passes| && s.passes[r].NoPass?
      ensures Drained(old(s), s, r, batch, n)
      ensures if read == Done then IsBatch(old(s), batch) && |batch| == Least(|Pending(old(s))|, 100)
              else !ok && batch == [] && s == old(s)
      ensures forall i :: 0 <= i < n ==> PastRow(answers(i))
      ensures if n < |batch| then !ok && !PastRow(answers(n)) else ok <==> read == Done
    {
      batch := ReadRows(r, read);
      n, ok := 0, read == Done;
      if batch != [] { n, ok := DrainRows(old(s), r, batch, answers); }
    }

    method DrainRows(ghost start: State, r: nat, rows: seq<UserId>, answers: nat -> RowAnswers) returns (n: nat, ok: bool)
      requires Valid() && rows != [] && Drained(start, s, r, rows, 0) && r < |s.passes| && s.passes[r] == Queueing(rows, false)
      requires forall i, j :: 0 <= i < j < |rows| ==> rows[i] != rows[j]
      modifies this
      ensures Valid() && r < |s.passes| && s.passes[r].NoPass? && Drained(start, s, r, rows, n)
      ensures forall i :: 0 <= i < n ==> PastRow(answers(i))
      ensures if n < |rows| then !ok && !PastRow(answers(n)) else ok
    {
      n, ok := 0, true;
      while n < |rows| && ok
        invariant Valid() && Drained(start, s, r, rows, n) && r < |s.passes|
        invariant s.passes[r] == if n == |rows| || !ok then NoPass else Queueing(rows[n..], false)
        invariant forall i :: 0 <= i < n ==> PastRow(answers(i))
        invariant !ok ==> n < |rows| && !PastRow(answers(n))
        decreases |rows| - n, ok
      {
        ok := DrainRow(start, r, rows, n, answers(n));
        if ok { n := n + 1; }
      }
    }

    method DrainRow(ghost start: State, r: nat, rows: seq<UserId>, n: nat, a: RowAnswers) returns (ok: bool)
      requires Valid() && Drained(start, s, r, rows, n) && n < |rows| && r < |s.passes| && s.passes[r] == Queueing(rows[n..], false)
      requires forall i, j :: 0 <= i < j < |rows| ==> rows[i] != rows[j]
      modifies this
      ensures Valid() && Drained(start, s, r, rows, if ok then n + 1 else n) && r < |s.passes|
      ensures ok <==> PastRow(a)
      ensures s.passes[r] == if ok && n + 1 < |rows| then Queueing(rows[n + 1..], false) else NoPass
    {
      ok := RelayRow(r, rows[n..], a);
      DrainOne(start, old(s), s, r, rows, n);
      assert rows[n..][1..] == rows[n + 1..];
    }

    method DoHandlerStep(c: nat, o: Outcome)
      requires Valid() && Enabled(s, Advance(c, o)) && s.consumers[c].held
      requires s.consumers[c].stage in {Revoke, Check, Delete, Finish}
      modifies this
      ensures Valid() && c < |s.consumers|
      ensures var pc := old(s).consumers[c];
              && Handles(old(s), s, c, pc.delivery, pc.user)
              && s.consumers[c] == pc.(stage := NextStage(old(s), c, o))
              && ConsumerOk(s, s.consumers[c])
              && s.users == (if pc.stage == Delete && o != Failed then old(s).users - {pc.user} else old(s).users)
              && (pc.stage == Finish && o == Done ==> pc.user !in s.outbox)
    {
      Do(Advance(c, o));
      HandlerStepHandles(old(s), c, o);
    }

    /**
      Worker.Handle: revoke, delete, clear the outbox row. It succeeds exactly if its
      calls get it through, and then the account row and the outbox row are gone
      and the sessions were revoked; otherwise the delivery is to be republished or,
      on its twentieth attempt, dead-lettered. Nothing but this account is touched.
    */
    method Handle(c: nat, a: HandleAnswers) returns (ok: bool)
      requires Valid() && c < |s.consumers| && s.consumers[c].Handling? && s.consumers[c].held
      requires s.consumers[c].stage == Revoke && ConsumerOk(s, s.consumers[c])
      modifies this
      ensures Valid() && c < |s.consumers|
      ensures ok <==> GetsThrough(a, old(s).consumers[c].user in old(s).users)
      ensures var pc := old(s).consumers[c];
              && Handles(old(s), s, c, pc.delivery, pc.user) && ConsumerOk(s, s.consumers[c])
              && s.consumers[c] == pc.(stage := if ok then Ack else if pc.attempts >= 20 then DeadLetter else Republish)
              && (ok ==> pc.user !in s.users && pc.user !in s.outbox)
    {
      ghost var pc := s.consumers[c];
      ok := RevokeAndDelete(c, a);
      if !ok { return; }
      ghost var before := s;
      DoHandlerStep(c, a.finish);
      HandlesTrans(old(s), before, s, c, pc.delivery, pc.user);
      ok := a.finish == Done;
    }

    method RevokeAndDelete(c: nat, a: HandleAnswers) returns (ok: bool)
      requires Valid() && c < |s.consumers| && s.consumers[c].Handling? && s.consumers[c].held
      requires s.consumers[c].stage == Revoke && ConsumerOk(s, s.consumers[c])
      modifies this
      ensures Valid() && c < |s.consumers|
      ensures ok <==> if a.revoke == Done then a.delete == Done else a.check == Done && old(s).consumers[c].user !in old(s).users
      ensures var pc := old(s).consumers[c];
              && Handles(old(s), s, c, pc.delivery, pc.user) && ConsumerOk(s, s.consumers[c])
              && s.consumers[c] == pc.(stage := if ok then Finish else if pc.attempts >= 20 then DeadLetter else Republish)
    {
      ghost var pc := s.consumers[c];
      DoHandlerStep(c, a.revoke);
      ghost var first := s;
      DoHandlerStep(c, if a.revoke == Done then a.delete else a.check);
      HandlesTrans(old(s), first, s, c, pc.delivery, pc.user);
      ok := s.consumers[c].stage == Finish;
    }

    /**
      Consume's loop body for one delivery, with the answers to its calls. A handling
      that gets through is acknowledged. One that fails is dead-lettered on the
      twentieth attempt; before that a retry with one attempt more replaces it, or it
      goes back to the work queue if the republish failed. If the answer to the
      broker fails the delivery stays unacknowledged. No other message changes.
    */
    method ConsumeOne(c: nat, id: nat, a: DeliveryAnswers)
      requires Valid() && c < |s.consumers| && s.consumers[c].Waiting? && id in s.copies && s.copies[id].place == Work
      modifies this
      ensures Valid() && c < |s.consumers| && s.consumers[c].Waiting?
      ensures var m := old(s).copies[id];
              if GetsThrough(a.handle, m.user in old(s).users) then
                m.user !in s.users && m.user !in s.outbox && if a.answer == Done then id !in s.copies else At(s, id, Unacked)
              else if m.attempts + 1 >= 20 then
                At(s, id, if a.answer == Done then Dead else Unacked)
              else if a.republish == Done then
                HasRetry(s, m.user, m.attempts + 1) && if a.answer == Done then id !in s.copies else At(s, id, Unacked)
              else
                At(s, id, if a.answer == Done then Work else Unacked)
      ensures id in s.copies ==> s.copies[id].user == old(s).copies[id].user && s.copies[id].attempts == old(s).copies[id].attempts
      ensures forall other :: other in old(s).copies && other != id ==> other in s.copies && s.copies[other] == old(s).copies[other]
    {
      TakeDelivery(c, id);
      var ok := Handle(c, a.handle);
      if s.consumers[c].stage == Republish { RepublishDelivery(c, a.republish); }
      ghost var settled := s;
      Answer(c, a.answer);
      AnswerOutcome(settled, s, settled.consumers[c], a.answer);
    }

    /** Republishes a failed delivery; failing that, it will be requeued. */
    method RepublishDelivery(c: nat, o: Outcome)
      requires Valid() && c < |s.consumers| && s.consumers[c].Handling? && s.consumers[c].held
      requires s.consumers[c].stage == Republish
      modifies this
      ensures Valid() && c < |s.consumers|
      ensures var pc := old(s).consumers[c];
              && s.consumers[c] == pc.(stage := if o == Done then AckRetried else Requeue)
              && (o == Done ==> HasRetry(s, pc.user, pc.attempts))
              && pc.delivery in old(s).copies
              && (forall other :: other in old(s).copies ==> other in s.copies && s.copies[other] == old(s).copies[other])
    {
      RunKeeps(trace, |trace| - 1);
      assert ConsumerOk(s, s.consumers[c]);
      FreshMessage(s);
      Do(Advance(c, o));
      assert old(s).nextCopy in s.copies ==> s.copies[old(s).nextCopy].attempts == old(s).consumers[c].attempts;
    }

    /** The ack, requeue or reject that ends a delivery. */
    method Answer(c: nat, o: Outcome)
      requires Valid() && c < |s.consumers| && s.consumers[c].Handling? && s.consumers[c].held
      requires s.consumers[c].stage in {Requeue, DeadLetter, Ack, AckRetried}
      modifies this
      ensures Valid() && c < |s.consumers| && s.consumers[c].Waiting?
      ensures Answered(old(s), s, old(s).consumers[c], o)
    {
      RunKeeps(trace, |trace| - 1);
      assert ConsumerOk(s, s.consumers[c]);
      AnswerIsOwn(s, c, o);
      Do(Advance(c, o));
    }

    method TakeDelivery(c: nat, id: nat)
      requires Valid() && c < |s.consumers| && s.consumers[c].Waiting? && id in s.copies && s.copies[id].place == Work
      modifies this
      ensures Valid() && c < |s.consumers| && ConsumerOk(s, s.consumers[c])
      ensures s.consumers[c] == Handling(id, old(s).copies[id].user, old(s).copies[id].attempts + 1, true, Revoke)
      ensures s.copies == old(s).copies[id := old(s).copies[id].(place := Unacked)] && s.users == old(s).users
    {
      Do(Deliver(c, id));
      assert ConsumerOk(s, s.consumers[c]);
    }
  }

  predicate At(s: State, id: nat, place: Place) { id in s.copies && s.copies[id].place == place }

  /** The retry queue holds a message for u with this attempt count. */
  ghost predicate HasRetry(s: State, u: UserId, attempts: nat) {
    exists id :: id in s.copies && s.copies[id].user == u && s.copies[id].attempts == attempts && s.copies[id].place == Retry
  }

  lemma FreshMessage(s: State)
    requires Inv(s)
    ensures s.nextCopy !in s.copies
  {
    assert s.nextCopy in s.copies ==> CopyOk(s, s.nextCopy);
  }
}
