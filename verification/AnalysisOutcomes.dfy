/**
  What becomes of analysis runs: how many can be unfinished, how often one is
  published, and when a recorded outcome can still change. Where the code does not
  give what one would expect, the exact condition is proved.
*/
module AnalysisOutcomes {
  import opened Common
  import opened Analysis

  // ---------------------------------------------------------------------------
  // Runs of the protocol
  // ---------------------------------------------------------------------------

  ghost predicate StepAt(run: seq<State>, acts: seq<Action>, i: nat)
    requires i < |acts| && i + 1 < |run|
  {
    Enabled(run[i], acts[i]) && run[i + 1] == Apply(run[i], acts[i])
  }

  /** States and the actions between them. */
  ghost predicate Steps(run: seq<State>, acts: seq<Action>) {
    |run| == |acts| + 1 && forall i: nat | i < |acts| :: StepAt(run, acts, i)
  }

  /** A run from the start in which no read was misled. */
  ghost predicate Orderly(run: seq<State>, acts: seq<Action>, clients: nat, workers: nat) {
    Steps(run, acts) && run[0] == Start(clients, workers) && forall i :: 0 <= i < |acts| ==> NotMisled(run[i], acts[i])
  }

  lemma {:induction false} RunKeeps(run: seq<State>, acts: seq<Action>, clients: nat, workers: nat, i: nat)
    requires Orderly(run, acts, clients, workers) && i < |run|
    ensures Inv(run[i])
  {
    if i == 0 {
      StartOk(clients, workers);
    } else {
      RunKeeps(run, acts, clients, workers, i - 1);
      assert StepAt(run, acts, i - 1);
      StepKeeps(run[i - 1], acts[i - 1]);
    }
  }

  ghost predicate LeadsBy(run: seq<State>, s: State, acts: seq<Action>, t: State) {
    Steps(run, acts) && run[0] == s && run[|acts|] == t
  }

  /** The actions can be taken one after the other, and lead from one state to another. */
  ghost predicate Leads(s: State, acts: seq<Action>, t: State) {
    exists run :: LeadsBy(run, s, acts, t)
  }

  lemma Here(s: State)
    ensures Leads(s, [], s)
  {
    assert LeadsBy([s], s, [], s);
  }

  lemma Then(s: State, first: seq<Action>, t: State, a: Action) returns (actions: seq<Action>, u: State)
    requires Leads(s, first, t) && Enabled(t, a)
    ensures actions == first + [a] && u == Apply(t, a) && Leads(s, actions, u)
  {
    actions, u := first + [a], Apply(t, a);
    var run :| LeadsBy(run, s, first, t);
    var longer := run + [u];
    forall i: nat | i < |actions| ensures StepAt(longer, actions, i) { assert i < |first| ==> StepAt(run, first, i); }
    assert LeadsBy(longer, s, actions, u);
  }

  lemma Chain(s: State, first: seq<Action>, t: State, second: seq<Action>, u: State)
    requires Leads(s, first, t) && Leads(t, second, u)
    ensures Leads(s, first + second, u)
  {
    var run :| LeadsBy(run, s, first, t);
    var run' :| LeadsBy(run', t, second, u);
    var longer, acts := run + run'[1..], first + second;
    forall i: nat | i < |acts| ensures StepAt(longer, acts, i) {
      if i < |first| { assert StepAt(run, first, i); } else { assert StepAt(run', second, i - |first|); }
    }
    assert LeadsBy(longer, s, acts, u);
  }

  // ---------------------------------------------------------------------------
  // How many runs are unfinished
  // ---------------------------------------------------------------------------

  /** Of the runs of a conversation only the newest can be pending or running. */
  lemma AtMostOneUnfinished(run: seq<State>, acts: seq<Action>, clients: nat, workers: nat, i: nat, r: Run, r': Run)
    requires Orderly(run, acts, clients, workers) && i < |run| && Exists(run[i], r) && Exists(run[i], r')
    requires r.conv == r'.conv && Unfinished(StatusOf(run[i], r)) && Unfinished(StatusOf(run[i], r'))
    ensures r == r' && r.index == |run[i].runs[r.conv]| - 1
  {
    RunKeeps(run, acts, clients, workers, i);
    assert OnlyNewest(run[i].runs[r.conv]);
  }

  /** Rows were created in the order of insertion. */
  predicate CreatedInOrder(rows: seq<Row>) {
    forall i, j :: 0 <= i < j < |rows| ==> rows[i].created < rows[j].created
  }

  lemma {:induction false} LatestIsLast(rows: seq<Row>)
    requires rows != [] && CreatedInOrder(rows)
    ensures Latest(rows) == |rows| - 1 && !Misleading(rows)
  {
    if |rows| > 1 { LatestIsLast(rows[..|rows| - 1]); }
  }

  /** Rows created out of order mislead exactly while the newest is not finished and the latest, another one, is. */
  lemma MisleadingExactly(rows: seq<Row>)
    requires OnlyNewest(rows)
    ensures Misleading(rows) <==> Unfinished(rows[|rows| - 1].status) && Latest(rows) != |rows| - 1
  {
  }

  /**
    From every state with misleading rows a second unfinished run follows, as soon
    as some client is free to ask for it or has the lock.
  */
  lemma MisleadingLetsIn(s: State, conv: nat, idle: nat) returns (actions: seq<Action>, t: State)
    requires Inv(s) && conv in s.runs && Misleading(s.runs[conv])
    requires conv in s.locks || (idle < |s.clients| && s.clients[idle].NoRequest?)
    ensures Leads(s, actions, t) && conv in t.runs && |t.runs[conv]| == |s.runs[conv]| + 1
    ensures var n := |s.runs[conv]|; Unfinished(t.runs[conv][n - 1].status) && Unfinished(t.runs[conv][n].status)
  {
    actions, t := [], s;
    Here(s);
    var p := idle;
    if conv in s.locks {
      p := s.locks[conv];
      assert LockOk(s, conv) && ClientOk(s, p);
    } else {
      actions, t := Then(s, actions, t, Begin(p, conv));
      actions, t := Then(s, actions, t, Lock(p));
    }
    actions, t := Then(s, actions, t, Read(p));
    actions, t := Then(s, actions, t, Commit(p));
  }

  // ---------------------------------------------------------------------------
  // How often a run is published
  // ---------------------------------------------------------------------------

  /**
    One client publishes a run: at most twice, and twice only after the first
    attempt was reported to have failed. Every message on the queue comes from
    one of these attempts, and a client that still publishes or cleans up has not
    been told that one worked.
  */
  lemma PublishedByOne(run: seq<State>, acts: seq<Action>, clients: nat, workers: nat, i: nat, r: Run)
    requires Orderly(run, acts, clients, workers) && i < |run|
    ensures var attempts := AttemptsOf(run[i].attempts, r);
            && |attempts| <= 2
            && (|attempts| == 2 ==> attempts[0].client == attempts[1].client && attempts[0].o != Done)
    ensures forall id :: id in run[i].jobs && run[i].jobs[id].run == r ==> FromAttempt(run[i].attempts, r, id)
    ensures forall p :: 0 <= p < |run[i].clients| && Creates(run[i].clients[p], r) ==> AllFailing(AttemptsOf(run[i].attempts, r), p)
  {
    RunKeeps(run, acts, clients, workers, i);
    forall id | id in run[i].jobs && run[i].jobs[id].run == r ensures FromAttempt(run[i].attempts, r, id) {
      assert JobOk(run[i], id);
    }
    forall p | 0 <= p < |run[i].clients| && Creates(run[i].clients[p], r)
      ensures AllFailing(AttemptsOf(run[i].attempts, r), p)
    {
      assert ClientOk(run[i], p);
    }
  }

  /**
    A publish leaves a message unless it failed without effect. If it was reported to
    have failed, a first one that may be tried again is; any other goes to the cleanup.
  */
  lemma PublishExactly(s: State, p: nat, o: Outcome, retry: bool)
    requires Enabled(s, Publish(p, o, retry))
    ensures var pc := s.clients[p];
            var t := Apply(s, Publish(p, o, retry));
            && t.jobs == (if o == Failed then s.jobs else s.jobs[s.nextJob := Job(pc.run, Ready(false))])
            && t.clients[p] == if o == Done then NoRequest
                               else if retry && !pc.again then Publishing(pc.run, pc.guarded, true)
                               else Cleanup(pc.run, pc.guarded)
  {
  }

  // ---------------------------------------------------------------------------
  // When a recorded outcome can change
  // ---------------------------------------------------------------------------

  lemma StepKeepsFinished(s: State, a: Action, r: Run)
    requires Enabled(s, a) && Finished(s, r)
    ensures Finished(Apply(s, a), r)
  {
    if ClientEnabled(s, a) { ClientsKeepFinished(s, a, r); } else { WorkersKeepFinished(s, a, r); }
  }

  lemma ClientsKeepFinished(s: State, a: Action, r: Run)
    requires ClientEnabled(s, a) && Finished(s, r)
    ensures Finished(ApplyClient(s, a), r)
  {
  }

  lemma WorkersKeepFinished(s: State, a: Action, r: Run)
    requires WorkerEnabled(s, a) && Finished(s, r)
    ensures Finished(ApplyWorker(s, a), r)
  {
  }

  /** No finished run becomes unfinished again, however the rows were created. */
  lemma {:induction false} FinishedStaysFinished(run: seq<State>, acts: seq<Action>, i: nat, j: nat, r: Run)
    requires Steps(run, acts) && i <= j < |run| && Finished(run[i], r)
    ensures Finished(run[j], r)
    decreases j - i
  {
    if i < j {
      FinishedStaysFinished(run, acts, i, j - 1, r);
      assert StepAt(run, acts, j - 1);
      StepKeepsFinished(run[j - 1], acts[j - 1], r);
    }
  }

  /**
    What every step does to a run's status. A claim takes an unfinished one; both
    outcomes are written whatever it is; and a request whose publish failed fails the
    run it submitted, but one it reanalyzed only while that is pending.
  */
  lemma StatusStepExactly(s: State, a: Action, r: Run)
    requires Enabled(s, a) && Exists(s, r)
    ensures Exists(Apply(s, a), r)
    ensures StatusOf(Apply(s, a), r) ==
            match a
            case Claim(w, o) => if o != Failed && s.workers[w].run == r && StatusOf(s, r) in {Pending, Running} then Running else StatusOf(s, r)
            case Complete(w, o) => if o != Failed && s.workers[w].run == r then Succeeded else StatusOf(s, r)
            case Fail(w, o) => if o != Failed && s.workers[w].run == r then Failure else StatusOf(s, r)
            case Clean(p, o) =>
              if o != Failed && s.clients[p].run == r && (!s.clients[p].guarded || StatusOf(s, r) == Pending) then Failure else StatusOf(s, r)
            case _ => StatusOf(s, r)
  {
    if ClientEnabled(s, a) { StatusClientStep(s, a, r); } else { StatusWorkerStep(s, a, r); }
  }

  lemma StatusClientStep(s: State, a: Action, r: Run)
    requires ClientEnabled(s, a) && Exists(s, r)
    ensures Exists(ApplyClient(s, a), r)
    ensures StatusOf(ApplyClient(s, a), r) ==
            if a.Clean? && a.o != Failed && s.clients[a.p].run == r && (!s.clients[a.p].guarded || StatusOf(s, r) == Pending) then Failure
            else StatusOf(s, r)
  {
  }

  lemma StatusWorkerStep(s: State, a: Action, r: Run)
    requires WorkerEnabled(s, a) && Exists(s, r)
    ensures Exists(ApplyWorker(s, a), r)
    ensures StatusOf(ApplyWorker(s, a), r) ==
            match a
            case Claim(w, o) => if o != Failed && s.workers[w].run == r && StatusOf(s, r) in {Pending, Running} then Running else StatusOf(s, r)
            case Complete(w, o) => if o != Failed && s.workers[w].run == r then Succeeded else StatusOf(s, r)
            case Fail(w, o) => if o != Failed && s.workers[w].run == r then Failure else StatusOf(s, r)
            case _ => StatusOf(s, r)
  {
  }

  /** A submission may fail its run whatever its status, a reanalysis only while it is pending; both runs are new and pending. */
  lemma GuardedExactly(s: State, a: Action)
    requires Enabled(s, a) && (a.Submit? || a.Commit?)
    ensures var t := Apply(s, a);
            && t.clients[a.p].Publishing? && (t.clients[a.p].guarded <==> a.Commit?)
            && Exists(t, t.clients[a.p].run) && !Exists(s, t.clients[a.p].run) && StatusOf(t, t.clients[a.p].run) == Pending
  {
  }

  /** A reanalysis goes on to add a run exactly if there is none or the one created last is finished; else it ends. */
  lemma ReadExactly(s: State, p: nat)
    requires Enabled(s, Read(p))
    ensures var conv := s.clients[p].conv;
            var rows := s.runs[conv];
            var t := Apply(s, Read(p));
            && t.runs == s.runs
            && (t.clients[p] == Deciding(conv, s.clients[p].begun) <==> rows == [] || rows[Latest(rows)].status in {Succeeded, Failure})
            && (t.clients[p] != Deciding(conv, s.clients[p].begun) ==> t.clients[p] == NoRequest && conv !in t.locks)
  {
  }

  /**
    A scoring that fails is tried again the first time its message is delivered, and
    recorded as the run's failure the second time.
  */
  lemma SecondFailureIsRecorded(s: State, w: nat, id: nat) returns (scored: State, settled: State)
    requires Inv(s) && Enabled(s, Deliver(w, id)) && Unfinished(StatusOf(s, s.jobs[id].run))
    ensures var r := s.jobs[id].run;
            && Leads(s, [Deliver(w, id), Claim(w, Done), Score(w, false)], scored)
            && if s.jobs[id].place.redelivered
               then Leads(scored, [Fail(w, Done), Ack(w)], settled) && id !in settled.jobs && Exists(settled, r) && StatusOf(settled, r) == Failure
               else Leads(scored, [Nack(w)], settled) && id in settled.jobs && settled.jobs[id] == Job(r, Ready(true)) &&
                    Exists(settled, r) && StatusOf(settled, r) == Running
  {
    scored := ScoredInVain(s, w, id);
    if s.jobs[id].place.redelivered {
      settled := RecordedFailure(scored, w, id);
    } else {
      var actions;
      Here(scored);
      actions, settled := Then(scored, [], scored, Nack(w));
      assert actions == [Nack(w)];
    }
  }

  lemma ScoredInVain(s: State, w: nat, id: nat) returns (t: State)
    requires Inv(s) && Enabled(s, Deliver(w, id)) && Unfinished(StatusOf(s, s.jobs[id].run))
    ensures Leads(s, [Deliver(w, id), Claim(w, Done), Score(w, false)], t)
    ensures var j := s.jobs[id];
            && w < |t.workers| && Exists(t, j.run) && StatusOf(t, j.run) == Running
            && t.workers[w] == Working(if j.place.redelivered then Failing else Nacking, id, j.run, j.place.redelivered, true)
  {
    assert JobOk(s, id);
    var actions;
    Here(s);
    actions, t := Then(s, [], s, Deliver(w, id));
    actions, t := Then(s, actions, t, Claim(w, Done));
    actions, t := Then(s, actions, t, Score(w, false));
    assert actions == [Deliver(w, id), Claim(w, Done), Score(w, false)];
  }

  lemma RecordedFailure(s: State, w: nat, id: nat) returns (t: State)
    requires w < |s.workers| && s.workers[w].Working? && s.workers[w].stage == Failing && s.workers[w].held && s.workers[w].job == id
    requires Exists(s, s.workers[w].run)
    ensures Leads(s, [Fail(w, Done), Ack(w)], t) && id !in t.jobs
    ensures Exists(t, s.workers[w].run) && StatusOf(t, s.workers[w].run) == Failure
  {
    var actions;
    Here(s);
    actions, t := Then(s, [], s, Fail(w, Done));
    actions, t := Then(s, actions, t, Ack(w));
    assert actions == [Fail(w, Done), Ack(w)];
  }

  /** The step writes the outcome that the finished run does not have. */
  predicate Overwrites(s: State, a: Action, r: Run)
    requires Enabled(s, a) && Exists(s, r)
  {
    match a
    case Complete(w, o) => o != Failed && s.workers[w].run == r && StatusOf(s, r) == Failure
    case Fail(w, o) => o != Failed && s.workers[w].run == r && StatusOf(s, r) == Succeeded
    case Clean(p, o) => o != Failed && s.clients[p].run == r && !s.clients[p].guarded && StatusOf(s, r) == Succeeded
    case _ => false
  }

  /** A finished run's status changes in exactly these steps. */
  lemma StatusChangesExactly(s: State, a: Action, r: Run)
    requires Enabled(s, a) && Finished(s, r)
    ensures StatusOf(Apply(s, a), r) != StatusOf(s, r) <==> Overwrites(s, a, r)
  {
  }

  /** Worker w may still record a success of the run, or a failure. */
  predicate MaySucceed(pc: Worker, r: Run) { pc.Working? && pc.run == r && pc.stage in {Scoring, Completing} }

  predicate MayFail(pc: Worker, r: Run) { pc.Working? && pc.run == r && (pc.stage == Failing || (pc.stage == Scoring && pc.last)) }

  /** The request of Submit that is still trying to publish the run, or about to fail it. */
  predicate MayDisown(pc: Client, r: Run) { Creates(pc, r) && !pc.guarded }

  /** Someone is left who can overwrite the outcome. */
  ghost predicate Open(s: State, r: Run)
    requires Exists(s, r)
  {
    if StatusOf(s, r) == Failure then exists w | 0 <= w < |s.workers| :: MaySucceed(s.workers[w], r)
    else (exists w | 0 <= w < |s.workers| :: MayFail(s.workers[w], r)) || exists p | 0 <= p < |s.clients| :: MayDisown(s.clients[p], r)
  }

  /** A worker that may write a finished run's other outcome was there before. */
  lemma WritersWereThere(s: State, a: Action, r: Run, w: nat)
    requires Enabled(s, a) && Finished(s, r) && w < |Apply(s, a).workers|
    ensures |Apply(s, a).workers| == |s.workers|
    ensures MaySucceed(Apply(s, a).workers[w], r) ==> MaySucceed(s.workers[w], r)
    ensures MayFail(Apply(s, a).workers[w], r) ==> MayFail(s.workers[w], r)
  {
    if ClientEnabled(s, a) {
      ClientsLeaveWorkers(s, a);
    }
  }

  lemma ClientsLeaveWorkers(s: State, a: Action)
    requires ClientEnabled(s, a)
    ensures ApplyClient(s, a).workers == s.workers
  {
  }

  lemma DisownersWereThere(s: State, a: Action, r: Run, p: nat)
    requires Enabled(s, a) && Finished(s, r) && p < |Apply(s, a).clients|
    ensures |Apply(s, a).clients| == |s.clients|
    ensures MayDisown(Apply(s, a).clients[p], r) ==> MayDisown(s.clients[p], r)
  {
    if ClientEnabled(s, a) { DisownersAreOld(s, a, r, p); } else { WorkersLeaveClients(s, a); }
  }

  lemma WorkersLeaveClients(s: State, a: Action)
    requires WorkerEnabled(s, a)
    ensures ApplyWorker(s, a).clients == s.clients
  {
  }

  lemma DisownersAreOld(s: State, a: Action, r: Run, p: nat)
    requires ClientEnabled(s, a) && Finished(s, r) && p < |s.clients|
    ensures |ApplyClient(s, a).clients| == |s.clients|
    ensures MayDisown(ApplyClient(s, a).clients[p], r) ==> MayDisown(s.clients[p], r)
  {
    if p == a.p { AddsNoOldRun(s, a, r); }
  }

  /** A client that becomes a run's creator has just inserted it. */
  lemma AddsNoOldRun(s: State, a: Action, r: Run)
    requires ClientEnabled(s, a) && Exists(s, r)
    ensures |ApplyClient(s, a).clients| == |s.clients|
    ensures Creates(ApplyClient(s, a).clients[a.p], r) ==>
              Creates(s.clients[a.p], r) && s.clients[a.p].guarded == ApplyClient(s, a).clients[a.p].guarded
  {
  }

  lemma ClosedIsNotOverwritten(s: State, a: Action, r: Run)
    requires Enabled(s, a) && Finished(s, r) && !Open(s, r)
    ensures !Overwrites(s, a, r)
  {
    match a
    case Complete(w, _) => assert StatusOf(s, r) == Failure ==> !MaySucceed(s.workers[w], r);
    case Fail(w, _) => assert StatusOf(s, r) == Succeeded ==> !MayFail(s.workers[w], r);
    case Clean(p, _) => assert StatusOf(s, r) == Succeeded ==> !MayDisown(s.clients[p], r);
    case _ =>
  }

  /** No step opens a finished run whose outcome nobody can overwrite. */
  lemma ClosedStaysClosed(s: State, a: Action, r: Run)
    requires Enabled(s, a) && Finished(s, r) && !Open(s, r)
    ensures Finished(Apply(s, a), r) && StatusOf(Apply(s, a), r) == StatusOf(s, r) && !Open(Apply(s, a), r)
  {
    var t := Apply(s, a);
    StepKeepsFinished(s, a, r);
    StatusChangesExactly(s, a, r);
    ClosedIsNotOverwritten(s, a, r);
    forall w | 0 <= w < |t.workers|
      ensures StatusOf(s, r) == Failure ==> !MaySucceed(t.workers[w], r)
      ensures StatusOf(s, r) == Succeeded ==> !MayFail(t.workers[w], r)
    {
      WritersWereThere(s, a, r, w);
    }
    forall p | 0 <= p < |t.clients| ensures StatusOf(s, r) == Succeeded ==> !MayDisown(t.clients[p], r) {
      DisownersWereThere(s, a, r, p);
    }
  }

  lemma {:induction false} ClosedForGood(run: seq<State>, acts: seq<Action>, i: nat, r: Run)
    requires Steps(run, acts) && i < |run| && Finished(run[0], r) && !Open(run[0], r)
    ensures Finished(run[i], r) && StatusOf(run[i], r) == StatusOf(run[0], r) && !Open(run[i], r)
  {
    if i > 0 {
      ClosedForGood(run, acts, i - 1, r);
      ClosedMove(run, acts, i - 1, r);
    }
  }

  lemma ClosedMove(run: seq<State>, acts: seq<Action>, i: nat, r: Run)
    requires i < |acts| && i + 1 < |run| && Steps(run, acts) && Finished(run[i], r) && !Open(run[i], r)
    ensures Finished(run[i + 1], r) && StatusOf(run[i + 1], r) == StatusOf(run[i], r) && !Open(run[i + 1], r)
  {
    assert StepAt(run, acts, i);
    ClosedStaysClosed(run[i], acts[i], r);
  }

  lemma WorkerOverwrites(s: State, w: nat, r: Run) returns (actions: seq<Action>, t: State)
    requires Finished(s, r) && w < |s.workers|
    requires if StatusOf(s, r) == Failure then MaySucceed(s.workers[w], r) else MayFail(s.workers[w], r)
    ensures Leads(s, actions, t) && Exists(t, r) && StatusOf(t, r) != StatusOf(s, r)
  {
    actions, t := [], s;
    Here(s);
    if s.workers[w].stage == Scoring { actions, t := Then(s, actions, t, Score(w, StatusOf(s, r) == Failure)); }
    actions, t := Then(s, actions, t, if StatusOf(s, r) == Failure then Complete(w, Done) else Fail(w, Done));
  }

  lemma ClientOverwrites(s: State, p: nat, r: Run) returns (actions: seq<Action>, t: State)
    requires Finished(s, r) && StatusOf(s, r) == Succeeded && p < |s.clients| && MayDisown(s.clients[p], r)
    ensures Leads(s, actions, t) && Exists(t, r) && StatusOf(t, r) != StatusOf(s, r)
  {
    actions, t := [], s;
    Here(s);
    if s.clients[p].Publishing? { actions, t := Then(s, actions, t, Publish(p, Failed, false)); }
    actions, t := Then(s, actions, t, Clean(p, Done));
  }

  ghost predicate ChangesAfter(s: State, r: Run, acts: seq<Action>, t: State)
    requires Exists(s, r)
  {
    Leads(s, acts, t) && Exists(t, r) && StatusOf(t, r) != StatusOf(s, r)
  }

  /**
    When an outcome is final: some continuation changes the status of a finished
    run if and only if it is a failure that a worker may still turn into a success,
    or a success that a worker or its Submit may still turn into a failure.
  */
  lemma FinalExactlyWhenClosed(s: State, r: Run)
    requires Finished(s, r)
    ensures (exists acts, t :: ChangesAfter(s, r, acts, t)) <==> Open(s, r)
  {
    if Open(s, r) {
      var actions, t;
      if w :| 0 <= w < |s.workers| && (if StatusOf(s, r) == Failure then MaySucceed(s.workers[w], r) else MayFail(s.workers[w], r)) {
        actions, t := WorkerOverwrites(s, w, r);
      } else {
        var p :| 0 <= p < |s.clients| && MayDisown(s.clients[p], r);
        actions, t := ClientOverwrites(s, p, r);
      }
      assert ChangesAfter(s, r, actions, t);
    } else {
      forall acts, t | Leads(s, acts, t) ensures !ChangesAfter(s, r, acts, t) {
        var run :| LeadsBy(run, s, acts, t);
        ClosedForGood(run, acts, |acts|, r);
      }
    }
  }
}
