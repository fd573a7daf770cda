/**
  Analysis runs come to an end: once requests, failures and crashes stop, every
  schedule of what is left to do is finite, and then every run is finished, but
  for those that were past saving when the quiet began.
*/
module AnalysisConvergence {
  import opened Common
  import opened Sums
  import opened Analysis
  import opened AnalysisOutcomes
  import opened AnalysisStranding

  /** A step that is still taken when nothing fails and nobody asks for anything new. */
  predicate Quiet(s: State, a: Action) {
    Enabled(s, a) &&
    match a
    case Publish(_, o, _) => o == Done
    case Clean(_, o) => o == Done
    case Claim(_, o) => o == Done
    case Score(_, ok) => ok
    case Complete(_, o) => o == Done
    case Fail(_, o) => o == Done
    case _ => a.Lock? || a.Read? || a.Commit? || a.Deliver? || a.Ack? || a.Nack?
  }

  ghost predicate QuietAt(run: seq<State>, acts: seq<Action>, i: nat)
    requires i < |acts| && i < |run|
  {
    Quiet(run[i], acts[i]) && NotMisled(run[i], acts[i])
  }

  ghost predicate IsQuietRun(run: seq<State>, acts: seq<Action>) {
    Steps(run, acts) && forall i: nat | i < |acts| :: QuietAt(run, acts, i)
  }

  ghost predicate Settled(s: State) {
    forall a :: !Quiet(s, a)
  }

  // ---------------------------------------------------------------------------
  // Measure
  // ---------------------------------------------------------------------------

  function ClientWeight(pc: Client): nat {
    match pc
    case NoRequest => 0
    case Waiting(_, _) => 25
    case Locked(_, _) => 24
    case Deciding(_, _) => 23
    case Publishing(_, _, _) => 22
    case Cleanup(_, _) => 1
  }

  function WorkerWeight(pc: Worker): nat {
    if pc.NoJob? then 0
    else
      match pc.stage
      case Claiming => 6
      case Scoring => 5
      case Completing => 4
      case Failing => 4
      case Acking => 1
      case Nacking => if pc.held && !pc.last then 12 else 1
  }

  function JobWeight(jobs: map<nat, Job>, id: nat): nat {
    if id !in jobs || jobs[id].place.Out? then 0 else if jobs[id].place.redelivered then 10 else 20
  }

  function ClientWeights(s: State): seq<nat> { seq(|s.clients|, p requires 0 <= p < |s.clients| => ClientWeight(s.clients[p])) }
  function WorkerWeights(s: State): seq<nat> { seq(|s.workers|, w requires 0 <= w < |s.workers| => WorkerWeight(s.workers[w])) }
  function JobWeights(s: State): seq<nat> { seq(s.nextJob, id requires 0 <= id < s.nextJob => JobWeight(s.jobs, id)) }

  function Measure(s: State): nat { Sum(ClientWeights(s)) + Sum(WorkerWeights(s)) + Sum(JobWeights(s)) }

  /** A step of one client that leaves the queue alone. */
  lemma ClientMeasure(s: State, t: State, p: nat)
    requires p < |s.clients| == |t.clients| && forall q :: 0 <= q < |s.clients| && q != p ==> t.clients[q] == s.clients[q]
    requires t.workers == s.workers && t.jobs == s.jobs && t.nextJob == s.nextJob
    ensures Measure(t) + ClientWeight(s.clients[p]) == Measure(s) + ClientWeight(t.clients[p])
  {
    SumUpdate(ClientWeights(s), ClientWeights(t), p);
    assert WorkerWeights(t) == WorkerWeights(s) && JobWeights(t) == JobWeights(s);
  }

  /** A step of one worker that may move or remove one message. */
  lemma WorkerMeasure(s: State, t: State, w: nat, id: nat)
    requires w < |s.workers| == |t.workers| && forall v :: 0 <= v < |s.workers| && v != w ==> t.workers[v] == s.workers[v]
    requires t.clients == s.clients && t.nextJob == s.nextJob && id < s.nextJob
    requires forall x :: x != id ==> JobWeight(t.jobs, x) == JobWeight(s.jobs, x)
    ensures Measure(t) + WorkerWeight(s.workers[w]) + JobWeight(s.jobs, id) ==
            Measure(s) + WorkerWeight(t.workers[w]) + JobWeight(t.jobs, id)
  {
    SumUpdate(WorkerWeights(s), WorkerWeights(t), w);
    SumUpdate(JobWeights(s), JobWeights(t), id);
    assert ClientWeights(t) == ClientWeights(s);
  }

  lemma PublishShrinks(s: State, p: nat, retry: bool)
    requires Inv(s) && ClientEnabled(s, Publish(p, Done, retry))
    ensures Measure(ApplyClient(s, Publish(p, Done, retry))) < Measure(s)
  {
    var t := ApplyClient(s, Publish(p, Done, retry));
    assert s.nextJob in s.jobs ==> JobOk(s, s.nextJob);
    SumUpdate(ClientWeights(s), ClientWeights(t), p);
    assert WorkerWeights(t) == WorkerWeights(s);
    assert JobWeights(t) == JobWeights(s) + [20];
    SumAppend(JobWeights(s), 20);
  }

  /** A request that goes on, other than by a publish, changes only its own place, and gets further. */
  lemma RequestGoesOn(s: State, a: Action)
    requires Quiet(s, a) && ClientEnabled(s, a) && !a.Publish?
    ensures var t := ApplyClient(s, a);
            && a.p < |s.clients| == |t.clients| && (forall q :: 0 <= q < |s.clients| && q != a.p ==> t.clients[q] == s.clients[q])
            && t.workers == s.workers && t.jobs == s.jobs && t.nextJob == s.nextJob
            && ClientWeight(t.clients[a.p]) < ClientWeight(s.clients[a.p])
  {
  }

  lemma ClientStepShrinks(s: State, a: Action)
    requires Inv(s) && Quiet(s, a) && ClientEnabled(s, a)
    ensures Measure(ApplyClient(s, a)) < Measure(s)
  {
    if a.Publish? {
      PublishShrinks(s, a.p, a.retry);
    } else {
      RequestGoesOn(s, a);
      ClientMeasure(s, ApplyClient(s, a), a.p);
    }
  }

  lemma DeliverShrinks(s: State, w: nat, id: nat)
    requires Inv(s) && WorkerEnabled(s, Deliver(w, id))
    ensures Measure(ApplyWorker(s, Deliver(w, id))) < Measure(s)
  {
    assert JobOk(s, id);
    WorkerMeasure(s, ApplyWorker(s, Deliver(w, id)), w, id);
  }

  lemma AckShrinks(s: State, w: nat)
    requires Inv(s) && WorkerEnabled(s, Ack(w))
    ensures Measure(ApplyWorker(s, Ack(w))) < Measure(s)
  {
    assert WorkerOk(s, w);
    WorkerMeasure(s, ApplyWorker(s, Ack(w)), w, s.workers[w].job);
  }

  lemma NackShrinks(s: State, w: nat)
    requires Inv(s) && WorkerEnabled(s, Nack(w))
    ensures Measure(ApplyWorker(s, Nack(w))) < Measure(s)
  {
    assert WorkerOk(s, w);
    WorkerMeasure(s, ApplyWorker(s, Nack(w)), w, s.workers[w].job);
  }

  lemma WorkStepShrinks(s: State, a: Action)
    requires Inv(s) && WorkerEnabled(s, a) && Quiet(s, a) && (a.Claim? || a.Score? || a.Complete? || a.Fail?)
    ensures Measure(ApplyWorker(s, a)) < Measure(s)
  {
    assert WorkerOk(s, a.w);
    WorkerMeasure(s, ApplyWorker(s, a), a.w, s.workers[a.w].job);
  }

  /** Every quiet step leaves less to do. */
  lemma QuietStepShrinks(s: State, a: Action)
    requires Inv(s) && Quiet(s, a)
    ensures Measure(Apply(s, a)) < Measure(s)
  {
    if ClientEnabled(s, a) { ClientStepShrinks(s, a); }
    else if a.Deliver? { DeliverShrinks(s, a.w, a.id); }
    else if a.Ack? { AckShrinks(s, a.w); }
    else if a.Nack? { NackShrinks(s, a.w); }
    else { WorkStepShrinks(s, a); }
  }

  // ---------------------------------------------------------------------------
  // Settled states
  // ---------------------------------------------------------------------------

  lemma LockHolderGoesOn(s: State, c: nat)
    requires Inv(s) && c in s.locks
    ensures Quiet(s, Read(s.locks[c])) || Quiet(s, Commit(s.locks[c]))
  {
    assert LockOk(s, c) && ClientOk(s, s.locks[c]);
  }

  lemma LockIsFree(s: State, c: nat)
    requires Inv(s) && Settled(s)
    ensures c !in s.locks
  {
    if c in s.locks { LockHolderGoesOn(s, c); }
  }

  lemma ClientsAreIdle(s: State, p: nat)
    requires Inv(s) && Settled(s) && p < |s.clients|
    ensures s.clients[p].NoRequest?
  {
    assert ClientOk(s, p);
    if s.clients[p].Waiting? { LockIsFree(s, s.clients[p].conv); }
    assert !Quiet(s, Lock(p)) && !Quiet(s, Read(p)) && !Quiet(s, Commit(p)) && !Quiet(s, Publish(p, Done, false)) && !Quiet(s, Clean(p, Done));
  }

  /** The step that a worker takes at each stage, if nothing fails. */
  function NextOf(stage: Stage, w: nat): Action {
    match stage
    case Claiming => Claim(w, Done)
    case Scoring => Score(w, true)
    case Completing => Complete(w, Done)
    case Failing => Fail(w, Done)
    case Acking => Ack(w)
    case Nacking => Nack(w)
  }

  lemma WorkersAreIdle(s: State, w: nat)
    requires Inv(s) && Settled(s) && w < |s.workers|
    ensures s.workers[w].NoJob?
  {
    assert WorkerOk(s, w);
    assert s.workers[w].Working? ==> !Quiet(s, NextOf(s.workers[w].stage, w));
  }

  /** Where no quiet step is left, nothing is going on, and every unfinished run is abandoned. */
  lemma SettledIsIdle(s: State)
    requires Inv(s) && Settled(s) && |s.workers| > 0
    ensures s.jobs == map[] && forall r :: Exists(s, r) ==> Finished(s, r) || Abandoned(s, r)
  {
    forall p | 0 <= p < |s.clients| ensures s.clients[p].NoRequest? { ClientsAreIdle(s, p); }
    forall w | 0 <= w < |s.workers| ensures s.workers[w].NoJob? { WorkersAreIdle(s, w); }
    forall id ensures id !in s.jobs {
      assert !Quiet(s, Deliver(0, id));
      assert id in s.jobs ==> JobOk(s, id);
    }
  }

  // ---------------------------------------------------------------------------
  // Runs past saving
  // ---------------------------------------------------------------------------

  predicate LastNack(pc: Worker) { pc.Working? && pc.stage == Nacking && pc.last }

  /** The message is with a worker that is about to drop it. */
  predicate Dropping(workers: seq<Worker>, j: Job) {
    j.place.Out? && j.place.worker < |workers| && LastNack(workers[j.place.worker])
  }

  predicate MessagesDropping(workers: seq<Worker>, jobs: map<nat, Job>, r: Run) {
    forall id :: id in jobs && jobs[id].run == r ==> Dropping(workers, jobs[id])
  }

  predicate WorkersLeaving(workers: seq<Worker>, r: Run) {
    forall w :: 0 <= w < |workers| && On(workers[w], r) ==> workers[w].stage == Nacking && (workers[w].held ==> workers[w].last)
  }

  predicate CreatorHelpless(clients: seq<Client>, r: Run, st: Status) {
    forall p :: 0 <= p < |clients| && Creates(clients[p], r) ==> clients[p].Cleanup? && clients[p].guarded && st == Running
  }

  /**
    The run is not finished, and all that still concerns it is a worker about to
    drop its message or to stop, or a Reanalyze that may only fail it while pending.
  */
  predicate Doomed(s: State, r: Run) {
    && Exists(s, r) && Unfinished(StatusOf(s, r))
    && MessagesDropping(s.workers, s.jobs, r) && WorkersLeaving(s.workers, r) && CreatorHelpless(s.clients, r, StatusOf(s, r))
  }

  lemma AbandonedIsDoomed(s: State, r: Run)
    requires Abandoned(s, r)
    ensures Doomed(s, r)
  {
    assert forall w :: 0 <= w < |s.workers| ==> !On(s.workers[w], r);
    assert forall p :: 0 <= p < |s.clients| ==> !Creates(s.clients[p], r);
  }

  /** One worker changes, which neither held nor will hold a message of the run that it is about to drop. */
  lemma OtherWorkerMoves(s: State, t: State, w: nat, r: Run)
    requires w < |s.workers| == |t.workers| && forall v :: 0 <= v < |s.workers| && v != w ==> t.workers[v] == s.workers[v]
    requires !On(s.workers[w], r) && !On(t.workers[w], r) && t.clients == s.clients
    requires Exists(s, r) && Exists(t, r) && StatusOf(t, r) == StatusOf(s, r)
    requires forall id :: id in s.jobs && s.jobs[id].run == r ==> id in t.jobs && t.jobs[id] == s.jobs[id] && s.jobs[id].place != Out(w)
    requires forall id :: id in t.jobs && t.jobs[id].run == r ==> id in s.jobs && t.jobs[id] == s.jobs[id]
    ensures Doomed(t, r) <==> Doomed(s, r)
  {
  }

  lemma NotOut(s: State, w: nat, r: Run)
    requires Inv(s) && w < |s.workers| && !On(s.workers[w], r)
    ensures forall id :: id in s.jobs && s.jobs[id].run == r ==> s.jobs[id].place != Out(w)
  {
    forall id | id in s.jobs && s.jobs[id].run == r ensures s.jobs[id].place != Out(w) { assert JobOk(s, id) && WorkerOk(s, w); }
  }

  lemma DoomedDeliver(s: State, w: nat, id: nat, r: Run)
    requires Inv(s) && WorkerEnabled(s, Deliver(w, id)) && Exists(s, r)
    ensures Doomed(ApplyWorker(s, Deliver(w, id)), r) <==> Doomed(s, r)
  {
    var t := ApplyWorker(s, Deliver(w, id));
    if s.jobs[id].run == r {
      assert On(t.workers[w], r) && !Dropping(s.workers, s.jobs[id]);
    } else {
      NotOut(s, w, r);
      OtherWorkerMoves(s, t, w, r);
    }
  }

  lemma DoomedAck(s: State, w: nat, r: Run)
    requires Inv(s) && WorkerEnabled(s, Ack(w)) && Exists(s, r)
    ensures Doomed(ApplyWorker(s, Ack(w)), r) <==> Doomed(s, r)
  {
    assert WorkerOk(s, w);
    if s.workers[w].run != r {
      NotOut(s, w, r);
      OtherWorkerMoves(s, ApplyWorker(s, Ack(w)), w, r);
    }
  }

  lemma DoomedNack(s: State, w: nat, r: Run)
    requires Inv(s) && WorkerEnabled(s, Nack(w)) && Exists(s, r)
    ensures Doomed(ApplyWorker(s, Nack(w)), r) <==> Doomed(s, r)
  {
    var t, pc := ApplyWorker(s, Nack(w)), s.workers[w];
    assert WorkerOk(s, w);
    if pc.run != r {
      NotOut(s, w, r);
      OtherWorkerMoves(s, t, w, r);
    } else if pc.held && !pc.last {
      assert On(s.workers[w], r) && t.jobs[pc.job] == Job(r, Ready(true));
    } else {
      DoomedLastNack(s, w, r);
    }
  }

  lemma DoomedLastNack(s: State, w: nat, r: Run)
    requires Inv(s) && WorkerEnabled(s, Nack(w)) && Exists(s, r) && s.workers[w].run == r && (s.workers[w].held ==> s.workers[w].last)
    ensures Doomed(ApplyWorker(s, Nack(w)), r) <==> Doomed(s, r)
  {
    var t, pc := ApplyWorker(s, Nack(w)), s.workers[w];
    assert WorkerOk(s, w);
    forall id | id in s.jobs && s.jobs[id].run == r && !(pc.held && id == pc.job)
      ensures id in t.jobs && t.jobs[id] == s.jobs[id] && s.jobs[id].place != Out(w)
    {
      assert JobOk(s, id);
    }
    assert forall v :: 0 <= v < |s.workers| && v != w ==> t.workers[v] == s.workers[v];
    if Doomed(t, r) {
      forall id | id in s.jobs && s.jobs[id].run == r ensures Dropping(s.workers, s.jobs[id]) {
        assert !(pc.held && id == pc.job) ==> Dropping(t.workers, t.jobs[id]);
      }
      forall v | 0 <= v < |s.workers| && On(s.workers[v], r)
        ensures s.workers[v].stage == Nacking && (s.workers[v].held ==> s.workers[v].last)
      {
        assert v != w ==> On(t.workers[v], r);
      }
    }
  }

  /** A worker that goes on changes nothing but its stage and its own run's status. */
  lemma WorkGoesOn(s: State, a: Action, r: Run)
    requires WorkerEnabled(s, a) && Quiet(s, a) && (a.Claim? || a.Score? || a.Complete? || a.Fail?) && Exists(s, r)
    ensures var t := ApplyWorker(s, a);
            && |t.workers| == |s.workers| && (forall v :: 0 <= v < |s.workers| && v != a.w ==> t.workers[v] == s.workers[v])
            && On(s.workers[a.w], s.workers[a.w].run) && On(t.workers[a.w], s.workers[a.w].run)
            && s.workers[a.w].stage != Nacking && t.workers[a.w].stage != Nacking
            && t.jobs == s.jobs && t.clients == s.clients
            && Exists(t, r) && (s.workers[a.w].run != r ==> StatusOf(t, r) == StatusOf(s, r))
  {
  }

  lemma DoomedStatement(s: State, a: Action, r: Run)
    requires Inv(s) && WorkerEnabled(s, a) && Quiet(s, a) && (a.Claim? || a.Score? || a.Complete? || a.Fail?) && Exists(s, r)
    ensures Doomed(ApplyWorker(s, a), r) <==> Doomed(s, r)
  {
    WorkGoesOn(s, a, r);
    if s.workers[a.w].run != r {
      NotOut(s, a.w, r);
      OtherWorkerMoves(s, ApplyWorker(s, a), a.w, r);
    }
  }

  lemma DoomedPublish(s: State, p: nat, retry: bool, r: Run)
    requires Inv(s) && ClientEnabled(s, Publish(p, Done, retry)) && Exists(s, r)
    ensures Doomed(ApplyClient(s, Publish(p, Done, retry)), r) <==> Doomed(s, r)
  {
    var t := ApplyClient(s, Publish(p, Done, retry));
    assert s.nextJob in s.jobs ==> JobOk(s, s.nextJob);
    assert t.jobs[s.nextJob] == Job(s.clients[p].run, Ready(false));
    assert forall id :: id in s.jobs ==> t.jobs[id] == s.jobs[id];
    if s.clients[p].run == r {
      assert Creates(s.clients[p], r) && !Dropping(t.workers, t.jobs[s.nextJob]);
    } else {
      assert CreatorHelpless(t.clients, r, StatusOf(s, r)) <==> CreatorHelpless(s.clients, r, StatusOf(s, r)) by {
        OtherClientMoves(s.clients, t.clients, p, r, StatusOf(s, r));
      }
    }
  }

  lemma OtherClientMoves(a: seq<Client>, b: seq<Client>, p: nat, r: Run, st: Status)
    requires p < |a| == |b| && forall q :: 0 <= q < |a| && q != p ==> b[q] == a[q]
    requires !Creates(a[p], r) && !Creates(b[p], r)
    ensures CreatorHelpless(a, r, st) <==> CreatorHelpless(b, r, st)
  {
  }

  lemma DoomedClean(s: State, p: nat, r: Run)
    requires Inv(s) && ClientEnabled(s, Clean(p, Done)) && Exists(s, r)
    ensures Doomed(ApplyClient(s, Clean(p, Done)), r) <==> Doomed(s, r)
  {
    var t, pc := ApplyClient(s, Clean(p, Done)), s.clients[p];
    if pc.run != r {
      OtherClientMoves(s.clients, t.clients, p, r, StatusOf(s, r));
    } else {
      CreatorIsAlone(s, p, r);
      assert Creates(pc, r);
    }
  }

  lemma DoomedRequest(s: State, a: Action, r: Run)
    requires Inv(s) && ClientEnabled(s, a) && (a.Lock? || a.Read? || a.Commit?) && Exists(s, r)
    ensures Doomed(ApplyClient(s, a), r) <==> Doomed(s, r)
  {
    OtherClientMoves(s.clients, ApplyClient(s, a).clients, a.p, r, StatusOf(s, r));
  }

  /** A quiet step dooms no run and saves no doomed one. */
  lemma QuietDoomsNothing(s: State, a: Action, r: Run)
    requires Inv(s) && Quiet(s, a) && Exists(s, r)
    ensures Doomed(Apply(s, a), r) <==> Doomed(s, r)
  {
    match a
    case Publish(p, _, retry) => DoomedPublish(s, p, retry, r);
    case Clean(p, _) => DoomedClean(s, p, r);
    case Deliver(w, id) => DoomedDeliver(s, w, id, r);
    case Ack(w) => DoomedAck(s, w, r);
    case Nack(w) => DoomedNack(s, w, r);
    case _ => if ClientEnabled(s, a) { DoomedRequest(s, a, r); } else { DoomedStatement(s, a, r); }
  }

  /** A run that a step creates has its creator, who is about to publish it. */
  lemma NewIsNotDoomed(s: State, a: Action, r: Run)
    requires Enabled(s, a) && !Exists(s, r)
    ensures !Doomed(Apply(s, a), r)
  {
    if a.Submit? || a.Commit? { assert Exists(Apply(s, a), r) ==> Creates(Apply(s, a).clients[a.p], r); }
  }

  // ---------------------------------------------------------------------------
  // Main results
  // ---------------------------------------------------------------------------

  lemma QuietMove(run: seq<State>, acts: seq<Action>, i: nat)
    requires i < |acts| && i + 1 < |run| && StepAt(run, acts, i) && Quiet(run[i], acts[i]) && NotMisled(run[i], acts[i]) && Inv(run[i])
    ensures Inv(run[i + 1]) && |run[i + 1].workers| == |run[i].workers| && Measure(run[i + 1]) < Measure(run[i])
  {
    StepKeeps(run[i], acts[i]);
    QuietStepShrinks(run[i], acts[i]);
    SameWorkers(run[i], acts[i]);
  }

  lemma QuietRunMove(run: seq<State>, acts: seq<Action>, i: nat)
    requires IsQuietRun(run, acts) && i < |acts| && Inv(run[i])
    ensures Inv(run[i + 1]) && |run[i + 1].workers| == |run[i].workers| && Measure(run[i + 1]) < Measure(run[i])
  {
    assert StepAt(run, acts, i) && QuietAt(run, acts, i);
    QuietMove(run, acts, i);
  }

  lemma SameWorkers(s: State, a: Action)
    requires Enabled(s, a)
    ensures |Apply(s, a).workers| == |s.workers|
  {
  }

  lemma QuietRunDooms(run: seq<State>, acts: seq<Action>, i: nat, r: Run)
    requires IsQuietRun(run, acts) && Inv(run[0]) && i < |acts|
    ensures Doomed(run[i + 1], r) <==> Doomed(run[i], r)
  {
    QuietRunKeeps(run, acts, i);
    assert StepAt(run, acts, i) && QuietAt(run, acts, i);
    QuietMoveDooms(run, acts, i, r);
  }

  lemma QuietMoveDooms(run: seq<State>, acts: seq<Action>, i: nat, r: Run)
    requires i < |acts| && i + 1 < |run| && StepAt(run, acts, i) && Quiet(run[i], acts[i]) && Inv(run[i])
    ensures Doomed(run[i + 1], r) <==> Doomed(run[i], r)
  {
    if Exists(run[i], r) {
      QuietDoomsNothing(run[i], acts[i], r);
    } else {
      NewIsNotDoomed(run[i], acts[i], r);
    }
  }

  lemma {:induction false} QuietRunKeeps(run: seq<State>, acts: seq<Action>, i: nat)
    requires IsQuietRun(run, acts) && Inv(run[0]) && i < |run|
    ensures Inv(run[i]) && |run[i].workers| == |run[0].workers| && Measure(run[i]) + i <= Measure(run[0])
  {
    if i > 0 {
      QuietRunKeeps(run, acts, i - 1);
      QuietRunMove(run, acts, i - 1);
    }
  }

  lemma {:induction false} Constant(b: seq<bool>, i: nat)
    requires i < |b| && forall k: nat | k + 1 < |b| :: b[k] == b[k + 1]
    ensures b[i] == b[0]
  {
    if i > 0 { Constant(b, i - 1); }
  }

  lemma DoomedFromTheStart(run: seq<State>, acts: seq<Action>, i: nat, r: Run)
    requires IsQuietRun(run, acts) && Inv(run[0]) && i < |run|
    ensures Doomed(run[i], r) <==> Doomed(run[0], r)
  {
    var doomed := seq(|run|, k requires 0 <= k < |run| => Doomed(run[k], r));
    forall k: nat | k + 1 < |doomed| ensures doomed[k] == doomed[k + 1] { QuietRunDooms(run, acts, k, r); }
    Constant(doomed, i);
  }

  /**
    Analysis converges. From any state that an orderly run reaches, every schedule
    of the quiet system is finite, with a length known beforehand; where no step is
    left, a run is finished exactly if it was not doomed when the quiet began.
  */
  lemma Converges(run: seq<State>, acts: seq<Action>, clients: nat, workers: nat, quiet: seq<State>, steps: seq<Action>)
    requires Orderly(run, acts, clients, workers) && IsQuietRun(quiet, steps) && quiet[0] == run[|acts|]
    requires |quiet[0].workers| > 0
    ensures |steps| <= Measure(quiet[0])
    ensures Settled(quiet[|steps|]) ==>
              forall r :: Exists(quiet[|steps|], r) ==> (Finished(quiet[|steps|], r) <==> !Doomed(quiet[0], r))
  {
    RunKeeps(run, acts, clients, workers, |acts|);
    QuietRunKeeps(quiet, steps, |steps|);
    var s := quiet[|steps|];
    if Settled(s) {
      SettledIsIdle(s);
      forall r | Exists(s, r) ensures Finished(s, r) <==> !Doomed(quiet[0], r) {
        DoomedFromTheStart(quiet, steps, |steps|, r);
        if Abandoned(s, r) { AbandonedIsDoomed(s, r); }
      }
    }
  }
}
