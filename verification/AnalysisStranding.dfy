/**
  Analysis runs that nobody will finish: which steps leave one behind, what
  becomes of it, and what it means for its conversation.
*/
module AnalysisStranding {
  import opened Common
  import opened Analysis
  import opened AnalysisOutcomes

  predicate NoMessage(jobs: map<nat, Job>, r: Run) {
    forall id :: id in jobs ==> jobs[id].run != r
  }

  predicate On(pc: Worker, r: Run) { pc.Working? && pc.run == r }

  predicate NoWorker(workers: seq<Worker>, r: Run) {
    forall w :: 0 <= w < |workers| ==> !On(workers[w], r)
  }

  predicate NoCreator(clients: seq<Client>, r: Run) {
    forall p :: 0 <= p < |clients| ==> !Creates(clients[p], r)
  }

  /** The run is not finished, and it is not on the queue, with a worker or with its creator. */
  predicate Abandoned(s: State, r: Run) {
    && Exists(s, r) && Unfinished(StatusOf(s, r))
    && NoMessage(s.jobs, r) && NoWorker(s.workers, r) && NoCreator(s.clients, r)
  }

  predicate NoOtherWorker(workers: seq<Worker>, w: nat, r: Run) {
    forall v :: 0 <= v < |workers| && v != w ==> !On(workers[v], r)
  }

  predicate NoOtherMessage(jobs: map<nat, Job>, id: nat, r: Run) {
    forall x :: x in jobs && x != id ==> jobs[x].run != r
  }

  /**
    The steps that abandon an unfinished run: its creator gives up, or cannot or
    may not fail it, while it is not on the queue or with a worker; the last
    failure of its last message is not requeued; or a worker whose message was
    taken back stops when no message is left.
  */
  predicate AbandonsBy(s: State, a: Action, r: Run)
    requires Enabled(s, a)
  {
    && Exists(s, r) && Unfinished(StatusOf(s, r))
    && match a
       case GiveUp(p) => Creates(s.clients[p], r) && NoMessage(s.jobs, r) && NoWorker(s.workers, r)
       case Clean(p, o) =>
         && Creates(s.clients[p], r) && (o == Failed || (s.clients[p].guarded && StatusOf(s, r) == Running))
         && NoMessage(s.jobs, r) && NoWorker(s.workers, r)
       case Nack(w) =>
         && On(s.workers[w], r) && NoOtherWorker(s.workers, w, r) && NoCreator(s.clients, r)
         && if s.workers[w].held then s.workers[w].last && NoOtherMessage(s.jobs, s.workers[w].job, r) else NoMessage(s.jobs, r)
       case Crash(w) =>
         && On(s.workers[w], r) && NoOtherWorker(s.workers, w, r) && NoCreator(s.clients, r)
         && !s.workers[w].held && NoMessage(s.jobs, r)
       case _ => false
  }

  // ---------------------------------------------------------------------------
  // Once abandoned, for good
  // ---------------------------------------------------------------------------

  lemma AbandonedStatus(s: State, a: Action, r: Run)
    requires Abandoned(s, r) && Enabled(s, a)
    ensures Exists(Apply(s, a), r) && StatusOf(Apply(s, a), r) == StatusOf(s, r)
  {
    if ClientEnabled(s, a) { AbandonedStatusClient(s, a, r); } else { AbandonedStatusWorker(s, a, r); }
  }

  lemma AbandonedStatusClient(s: State, a: Action, r: Run)
    requires Abandoned(s, r) && ClientEnabled(s, a)
    ensures Exists(ApplyClient(s, a), r) && StatusOf(ApplyClient(s, a), r) == StatusOf(s, r)
  {
    if a.Clean? { assert !Creates(s.clients[a.p], r); }
  }

  lemma AbandonedStatusWorker(s: State, a: Action, r: Run)
    requires Abandoned(s, r) && WorkerEnabled(s, a)
    ensures Exists(ApplyWorker(s, a), r) && StatusOf(ApplyWorker(s, a), r) == StatusOf(s, r)
  {
    assert !On(s.workers[a.w], r);
  }

  lemma AbandonedWorkers(s: State, a: Action, r: Run)
    requires Abandoned(s, r) && WorkerEnabled(s, a)
    ensures NoWorker(ApplyWorker(s, a).workers, r) && NoMessage(ApplyWorker(s, a).jobs, r)
  {
    if !a.Deliver? { assert !On(s.workers[a.w], r); }
  }

  lemma AbandonedClients(s: State, a: Action, r: Run)
    requires Abandoned(s, r) && ClientEnabled(s, a)
    ensures NoCreator(ApplyClient(s, a).clients, r) && NoMessage(ApplyClient(s, a).jobs, r)
  {
    if a.Publish? { assert !Creates(s.clients[a.p], r); }
  }

  /** No step ever touches an abandoned run again. */
  lemma AbandonedForever(s: State, a: Action, r: Run)
    requires Abandoned(s, r) && Enabled(s, a)
    ensures Abandoned(Apply(s, a), r) && StatusOf(Apply(s, a), r) == StatusOf(s, r)
  {
    AbandonedStatus(s, a, r);
    if ClientEnabled(s, a) {
      AbandonedClients(s, a, r);
      ClientsLeaveWorkers(s, a);
    } else {
      AbandonedWorkers(s, a, r);
    }
  }

  // ---------------------------------------------------------------------------
  // Which steps abandon a run
  // ---------------------------------------------------------------------------

  lemma CreatorIsAlone(s: State, p: nat, r: Run)
    requires Inv(s) && p < |s.clients| && Creates(s.clients[p], r)
    ensures forall q :: 0 <= q < |s.clients| && q != p ==> !Creates(s.clients[q], r)
  {
    forall q | 0 <= q < |s.clients| && q != p ensures !Creates(s.clients[q], r) {
      assert q < p ==> !SameRun(s.clients[q], s.clients[p]);
      assert p < q ==> !SameRun(s.clients[p], s.clients[q]);
    }
  }

  lemma AbandonsByIsEnough(s: State, a: Action, r: Run)
    requires Inv(s) && Enabled(s, a) && AbandonsBy(s, a, r)
    ensures Abandoned(Apply(s, a), r)
  {
    match a
    case GiveUp(p) => CreatorIsAlone(s, p, r);
    case Clean(p, _) => CreatorIsAlone(s, p, r);
    case Nack(w) => assert WorkerOk(s, w);
    case Crash(w) =>
  }

  lemma AbandoningClientSteps(s: State, a: Action, r: Run)
    requires Inv(s) && ClientEnabled(s, a) && Abandoned(ApplyClient(s, a), r)
    ensures Abandoned(s, r) || AbandonsBy(s, a, r)
  {
    ClientsLeaveWorkers(s, a);
    CreatedHasCreator(s, a, r);
    if a.Publish? { PublishAbandonsNothing(s, a.p, a.o, a.retry, r); } else { CreatorLeaves(s, a, r); }
  }

  lemma CreatorLeaves(s: State, a: Action, r: Run)
    requires ClientEnabled(s, a) && !a.Publish? && Exists(s, r) && NoWorker(s.workers, r) && Abandoned(ApplyClient(s, a), r)
    ensures Abandoned(s, r) || AbandonsBy(s, a, r)
  {
    var t := ApplyClient(s, a);
    forall p | 0 <= p < |s.clients| && p != a.p ensures !Creates(s.clients[p], r) { assert !Creates(t.clients[p], r); }
  }

  lemma PublishAbandonsNothing(s: State, p: nat, o: Outcome, retry: bool, r: Run)
    requires Inv(s) && ClientEnabled(s, Publish(p, o, retry)) && Abandoned(ApplyClient(s, Publish(p, o, retry)), r)
    ensures NoCreator(s.clients, r) && NoMessage(s.jobs, r)
  {
    var t := ApplyClient(s, Publish(p, o, retry));
    assert o == Done ==> s.nextJob in t.jobs && t.jobs[s.nextJob].run == s.clients[p].run;
    forall q | 0 <= q < |s.clients| ensures !Creates(s.clients[q], r) { assert !Creates(t.clients[q], r); }
    forall id | id in s.jobs ensures s.jobs[id].run != r { assert JobOk(s, id) && t.jobs[id] == s.jobs[id]; }
  }

  lemma CreatedHasCreator(s: State, a: Action, r: Run)
    requires ClientEnabled(s, a) && Exists(ApplyClient(s, a), r) && NoCreator(ApplyClient(s, a).clients, r)
    ensures Exists(s, r)
  {
    if a.Submit? || a.Commit? { assert !Creates(ApplyClient(s, a).clients[a.p], r); }
  }

  /** A worker that goes on with its message abandons nothing. */
  lemma BusyWorkerSteps(s: State, a: Action, r: Run)
    requires Inv(s) && WorkerEnabled(s, a) && !a.Ack? && !a.Nack? && !a.Crash? && Abandoned(ApplyWorker(s, a), r)
    ensures Abandoned(s, r)
  {
    if a.Deliver? || a.TakeBack? { QueueSteps(s, a, r); } else { StatementSteps(s, a, r); }
  }

  lemma QueueSteps(s: State, a: Action, r: Run)
    requires Inv(s) && WorkerEnabled(s, a) && (a.Deliver? || a.TakeBack?) && Abandoned(ApplyWorker(s, a), r)
    ensures Abandoned(s, r)
  {
    var t := ApplyWorker(s, a);
    forall v | 0 <= v < |s.workers| ensures !On(s.workers[v], r) { assert !On(t.workers[v], r); }
    assert WorkerOk(s, a.w);
    forall id | id in s.jobs ensures s.jobs[id].run != r { assert id in t.jobs && t.jobs[id].run == s.jobs[id].run; }
  }

  lemma StatementSteps(s: State, a: Action, r: Run)
    requires WorkerEnabled(s, a) && (a.Claim? || a.Score? || a.Complete? || a.Fail?) && Abandoned(ApplyWorker(s, a), r)
    ensures Abandoned(s, r)
  {
    var t := ApplyWorker(s, a);
    assert t.jobs == s.jobs && t.clients == s.clients;
    forall v | 0 <= v < |s.workers| ensures !On(s.workers[v], r) { assert !On(t.workers[v], r); }
  }

  lemma AckingStep(s: State, w: nat, r: Run)
    requires Inv(s) && WorkerEnabled(s, Ack(w)) && Abandoned(ApplyWorker(s, Ack(w)), r)
    ensures Abandoned(s, r)
  {
    var t := ApplyWorker(s, Ack(w));
    assert WorkerOk(s, w) && s.workers[w].run != r;
    forall v | 0 <= v < |s.workers| ensures !On(s.workers[v], r) { assert v != w ==> !On(t.workers[v], r); }
    var pc := s.workers[w];
    forall id | id in s.jobs ensures s.jobs[id].run != r {
      if !(pc.held && id == pc.job) { assert t.jobs[id] == s.jobs[id]; }
    }
  }

  lemma NackingStep(s: State, w: nat, r: Run)
    requires Inv(s) && WorkerEnabled(s, Nack(w)) && Abandoned(ApplyWorker(s, Nack(w)), r)
    ensures Abandoned(s, r) || AbandonsBy(s, Nack(w), r)
  {
    var t, pc := ApplyWorker(s, Nack(w)), s.workers[w];
    assert WorkerOk(s, w);
    forall v | 0 <= v < |s.workers| && v != w ensures !On(s.workers[v], r) { assert !On(t.workers[v], r); }
    assert pc.held && !pc.last ==> pc.job in t.jobs;
    forall id | id in s.jobs && !(pc.held && id == pc.job) ensures s.jobs[id].run != r { assert t.jobs[id] == s.jobs[id]; }
  }

  lemma CrashingStep(s: State, w: nat, r: Run)
    requires Inv(s) && WorkerEnabled(s, Crash(w)) && Abandoned(ApplyWorker(s, Crash(w)), r)
    ensures Abandoned(s, r) || AbandonsBy(s, Crash(w), r)
  {
    var t, pc := ApplyWorker(s, Crash(w)), s.workers[w];
    assert WorkerOk(s, w);
    forall v | 0 <= v < |s.workers| && v != w ensures !On(s.workers[v], r) { assert !On(t.workers[v], r); }
    forall id | id in s.jobs ensures s.jobs[id].run != r { assert id in t.jobs && t.jobs[id].run == s.jobs[id].run; }
  }

  lemma AbandoningWorkerSteps(s: State, a: Action, r: Run)
    requires Inv(s) && WorkerEnabled(s, a) && Abandoned(ApplyWorker(s, a), r)
    ensures Abandoned(s, r) || AbandonsBy(s, a, r)
  {
    match a
    case Ack(w) => AckingStep(s, w, r);
    case Nack(w) => NackingStep(s, w, r);
    case Crash(w) => CrashingStep(s, w, r);
    case _ => BusyWorkerSteps(s, a, r);
  }

  /** A step abandons a run in exactly these cases. */
  lemma AbandonedExactly(s: State, a: Action, r: Run)
    requires Inv(s) && Enabled(s, a)
    ensures Abandoned(Apply(s, a), r) <==> Abandoned(s, r) || AbandonsBy(s, a, r)
  {
    if Abandoned(s, r) { AbandonedForever(s, a, r); }
    if AbandonsBy(s, a, r) { AbandonsByIsEnough(s, a, r); }
    if Abandoned(Apply(s, a), r) {
      if ClientEnabled(s, a) { AbandoningClientSteps(s, a, r); } else { AbandoningWorkerSteps(s, a, r); }
    }
  }

  /** Every abandoned run was abandoned by one of these steps. */
  lemma {:induction false} AbandonedBySomeStep(run: seq<State>, acts: seq<Action>, clients: nat, workers: nat, i: nat, r: Run)
    returns (j: nat)
    requires Orderly(run, acts, clients, workers) && i < |run| && Abandoned(run[i], r)
    ensures j < i && Enabled(run[j], acts[j]) && AbandonsBy(run[j], acts[j], r)
  {
    assert i > 0;
    RunKeeps(run, acts, clients, workers, i - 1);
    assert StepAt(run, acts, i - 1);
    AbandonedExactly(run[i - 1], acts[i - 1], r);
    if AbandonsBy(run[i - 1], acts[i - 1], r) {
      j := i - 1;
    } else {
      j := AbandonedBySomeStep(run, acts, clients, workers, i - 1, r);
    }
  }

  // ---------------------------------------------------------------------------
  // What it means for the conversation
  // ---------------------------------------------------------------------------

  /** The run that every Reanalyze finds is abandoned, and none is past that check. */
  predicate Blocked(s: State, r: Run) {
    && Abandoned(s, r) && r.index == Latest(s.runs[r.conv])
    && NoneDeciding(s.clients, r.conv)
  }

  predicate NoneDeciding(clients: seq<Client>, conv: nat) {
    forall p :: 0 <= p < |clients| ==> !(clients[p].Deciding? && clients[p].conv == conv)
  }

  /** The rows of the conversation are the same ones. */
  predicate SameRows(a: seq<Row>, b: seq<Row>) {
    |a| == |b| && forall i :: 0 <= i < |a| ==> a[i].created == b[i].created
  }

  lemma {:induction false} LatestSame(a: seq<Row>, b: seq<Row>)
    requires a != [] && SameRows(a, b)
    ensures Latest(a) == Latest(b)
  {
    if |a| > 1 { LatestSame(a[..|a| - 1], b[..|b| - 1]); }
  }

  lemma BlockedRows(s: State, a: Action, r: Run)
    requires Blocked(s, r) && Enabled(s, a)
    ensures r.conv in Apply(s, a).runs && SameRows(s.runs[r.conv], Apply(s, a).runs[r.conv])
  {
    if ClientEnabled(s, a) { BlockedRowsClient(s, a, r); } else { WorkersKeepRows(s, a, r.conv); }
  }

  lemma BlockedRowsClient(s: State, a: Action, r: Run)
    requires Blocked(s, r) && ClientEnabled(s, a)
    ensures r.conv in ApplyClient(s, a).runs && SameRows(s.runs[r.conv], ApplyClient(s, a).runs[r.conv])
  {
  }

  lemma WorkersKeepRows(s: State, a: Action, conv: nat)
    requires WorkerEnabled(s, a) && conv in s.runs
    ensures conv in ApplyWorker(s, a).runs && SameRows(s.runs[conv], ApplyWorker(s, a).runs[conv])
  {
  }

  lemma BlockedClients(s: State, a: Action, r: Run)
    requires Blocked(s, r) && Enabled(s, a)
    ensures NoneDeciding(Apply(s, a).clients, r.conv)
  {
    if !ClientEnabled(s, a) { WorkersLeaveClients(s, a); } else if a.Read? { BlockedRead(s, a.p, r); }
  }

  /** A read of a blocked conversation ends the request. */
  lemma BlockedRead(s: State, p: nat, r: Run)
    requires Blocked(s, r) && ClientEnabled(s, Read(p))
    ensures s.clients[p].conv == r.conv ==> ApplyClient(s, Read(p)).clients[p] == NoRequest
  {
  }

  /** A conversation whose latest run is abandoned gets no other one: every later Reanalyze returns that run as it is. */
  lemma BlockedForever(s: State, a: Action, r: Run)
    requires Blocked(s, r) && Enabled(s, a)
    ensures Blocked(Apply(s, a), r) && StatusOf(Apply(s, a), r) == StatusOf(s, r)
    ensures |Apply(s, a).runs[r.conv]| == |s.runs[r.conv]|
    ensures a.Read? && s.clients[a.p].conv == r.conv ==> Apply(s, a).clients[a.p] == NoRequest
  {
    AbandonedForever(s, a, r);
    BlockedRows(s, a, r);
    BlockedClients(s, a, r);
    LatestSame(s.runs[r.conv], Apply(s, a).runs[r.conv]);
  }

  lemma AbandonedBlocks(s: State, r: Run)
    requires Inv(s) && Abandoned(s, r) && !Misleading(s.runs[r.conv])
    ensures Blocked(s, r)
  {
    assert OnlyNewest(s.runs[r.conv]);
    forall p | 0 <= p < |s.clients| ensures !(s.clients[p].Deciding? && s.clients[p].conv == r.conv) { assert ClientOk(s, p); }
  }

  /** Any request that stops between its commit and its publish blocks its conversation for good. */
  lemma StopBeforePublishBlocks(s: State, p: nat)
    requires Inv(s) && p < |s.clients| && s.clients[p].Publishing? && !s.clients[p].again
    requires var r := s.clients[p].run; Exists(s, r) && Unfinished(StatusOf(s, r)) && !Misleading(s.runs[r.conv])
    ensures Blocked(Apply(s, GiveUp(p)), s.clients[p].run)
  {
    var r, t := s.clients[p].run, Apply(s, GiveUp(p));
    assert ClientOk(s, p);
    forall id | id in s.jobs ensures s.jobs[id].run != r { assert JobOk(s, id); }
    forall w | 0 <= w < |s.workers| ensures !On(s.workers[w], r) { assert WorkerOk(s, w); }
    AbandonedExactly(s, GiveUp(p), r);
    EndKeeps(s, p);
    AbandonedBlocks(t, r);
  }
}
