/**
  Runs of the analysis protocol that reach the states the exact conditions speak
  of: misleading rows, and outcomes that are recorded but not final.
*/
module AnalysisExamples {
  import opened Common
  import opened Analysis
  import opened AnalysisOutcomes

  lemma SameState(s: State, t: State)
    requires s.runs.Keys == t.runs.Keys && (forall c :: c in s.runs ==> s.runs[c] == t.runs[c])
    requires s.locks == t.locks && s.clock == t.clock && s.clients == t.clients && s.workers == t.workers
    requires s.jobs == t.jobs && s.nextJob == t.nextJob
    requires s.attempts.Keys == t.attempts.Keys && (forall r :: r in s.attempts ==> s.attempts[r] == t.attempts[r])
    ensures s == t
  {
  }

  // ---------------------------------------------------------------------------
  // Outcomes that are not final
  // ---------------------------------------------------------------------------

  const R := Run(7, 0)
  const LostAttempt := map[R := [Attempt(0, Lost, 0)]]

  /** Submit was not told that its message arrived. */
  const Unconfirmed := State(map[7 := [Row(Pending, 0)]], map[], 1, [Cleanup(R, false)], [NoJob],
                             map[0 := Job(R, Ready(false))], 1, LostAttempt)

  /** A worker scored that message while Submit was about to fail the run. */
  const Scored := State(map[7 := [Row(Running, 0)]], map[], 1, [Cleanup(R, false)], [Working(Completing, 0, R, false, true)],
                        map[0 := Job(R, Out(0))], 1, LostAttempt)

  lemma UnconfirmedIsReached() returns (actions: seq<Action>)
    ensures Leads(Start(1, 1), actions, Unconfirmed)
  {
    var s := Start(1, 1);
    var t;
    Here(s);
    actions, t := Then(s, [], s, Submit(0, 7));
    actions, t := Then(s, actions, t, Publish(0, Lost, false));
    SameState(t, Unconfirmed);
  }

  lemma ScoredFollows() returns (actions: seq<Action>)
    ensures Leads(Unconfirmed, actions, Scored)
  {
    var s := Unconfirmed;
    var t;
    Here(s);
    actions, t := Then(s, [], s, Deliver(0, 0));
    actions, t := Then(s, actions, t, Claim(0, Done));
    actions, t := Then(s, actions, t, Score(0, true));
    SameState(t, Scored);
  }

  /** Either outcome may be recorded first, and then be overwritten by the other one. */
  lemma BothOutcomesCanBeOverwritten() returns (actions: seq<Action>, failed: State, succeeded: State)
    ensures Leads(Start(1, 1), actions + [Clean(0, Done)], failed) && Leads(Start(1, 1), actions + [Complete(0, Done)], succeeded)
    ensures Finished(failed, R) && StatusOf(failed, R) == Failure && Open(failed, R)
    ensures Finished(succeeded, R) && StatusOf(succeeded, R) == Succeeded && Open(succeeded, R)
  {
    actions := UnconfirmedIsReached();
    var more := ScoredFollows();
    Chain(Start(1, 1), actions, Unconfirmed, more, Scored);
    actions := actions + more;
    var longer;
    longer, failed := Then(Start(1, 1), actions, Scored, Clean(0, Done));
    longer, succeeded := Then(Start(1, 1), actions, Scored, Complete(0, Done));
    assert MaySucceed(failed.workers[0], R) && MayDisown(succeeded.clients[0], R);
  }

  // ---------------------------------------------------------------------------
  // Misleading rows
  // ---------------------------------------------------------------------------

  const A0 := map[R := [Attempt(0, Failed, 0)]]
  const A1 := map[R := [Attempt(0, Failed, 0)], Run(7, 1) := [Attempt(1, Failed, 0)]]

  const FirstFailed := State(map[7 := [Row(Failure, 0)]], map[], 1, [NoRequest, NoRequest], [], map[], 0, A0)
  const BothBegun := State(map[7 := [Row(Failure, 0)]], map[7 := 1], 3, [Waiting(7, 1), Locked(7, 2)], [], map[], 0, A0)
  const SecondInserted := State(map[7 := [Row(Failure, 0), Row(Pending, 2)]], map[], 3,
                                [Waiting(7, 1), Publishing(Run(7, 1), true, false)], [], map[], 0, A0)
  const SecondFailed := State(map[7 := [Row(Failure, 0), Row(Failure, 2)]], map[], 3, [Waiting(7, 1), NoRequest], [], map[], 0, A1)

  /** Two Reanalyze calls overlapped, and the one that began first inserted last. */
  const Overlapped := State(map[7 := [Row(Failure, 0), Row(Failure, 2), Row(Pending, 1)]], map[], 3,
                            [Publishing(Run(7, 2), true, false), NoRequest], [], map[], 0, A1)

  lemma FirstFailedIsReached() returns (actions: seq<Action>)
    ensures Leads(Start(2, 0), actions, FirstFailed)
  {
    var s := Start(2, 0);
    var t;
    Here(s);
    actions, t := Then(s, [], s, Submit(0, 7));
    actions, t := Then(s, actions, t, Publish(0, Failed, false));
    actions, t := Then(s, actions, t, Clean(0, Done));
    SameState(t, FirstFailed);
  }

  lemma BothBegunFollows() returns (actions: seq<Action>)
    ensures Leads(FirstFailed, actions, BothBegun)
  {
    var s := FirstFailed;
    var t;
    Here(s);
    actions, t := Then(s, [], s, Begin(0, 7));
    actions, t := Then(s, actions, t, Begin(1, 7));
    actions, t := Then(s, actions, t, Lock(1));
    SameState(t, BothBegun);
  }

  lemma SecondInsertedFollows() returns (actions: seq<Action>)
    ensures Leads(BothBegun, actions, SecondInserted)
  {
    var s := BothBegun;
    var t;
    Here(s);
    actions, t := Then(s, [], s, Read(1));
    actions, t := Then(s, actions, t, Commit(1));
    SameState(t, SecondInserted);
  }

  lemma SecondFailedFollows() returns (actions: seq<Action>)
    ensures Leads(SecondInserted, actions, SecondFailed)
  {
    var s := SecondInserted;
    var t;
    Here(s);
    actions, t := Then(s, [], s, Publish(1, Failed, false));
    actions, t := Then(s, actions, t, Clean(1, Done));
    SameState(t, SecondFailed);
  }

  lemma OverlappedFollows() returns (actions: seq<Action>)
    ensures Leads(SecondFailed, actions, Overlapped)
  {
    var s := SecondFailed;
    var t;
    Here(s);
    actions, t := Then(s, [], s, Lock(0));
    actions, t := Then(s, actions, t, Read(0));
    actions, t := Then(s, actions, t, Commit(0));
    SameState(t, Overlapped);
  }

  /** Misleading rows are reached: the latest run is not the newest one. */
  lemma MisleadingIsReached() returns (actions: seq<Action>)
    ensures Leads(Start(2, 0), actions, Overlapped)
    ensures 7 in Overlapped.runs && OnlyNewest(Overlapped.runs[7]) && Misleading(Overlapped.runs[7])
  {
    actions := FirstFailedIsReached();
    var more := BothBegunFollows();
    Chain(Start(2, 0), actions, FirstFailed, more, BothBegun);
    actions := actions + more;
    more := SecondInsertedFollows();
    Chain(Start(2, 0), actions, BothBegun, more, SecondInserted);
    actions := actions + more;
    more := SecondFailedFollows();
    Chain(Start(2, 0), actions, SecondInserted, more, SecondFailed);
    actions := actions + more;
    more := OverlappedFollows();
    Chain(Start(2, 0), actions, SecondFailed, more, Overlapped);
    actions := actions + more;
    OverlappedMisleads();
  }

  lemma OverlappedMisleads()
    ensures 7 in Overlapped.runs && OnlyNewest(Overlapped.runs[7]) && Misleading(Overlapped.runs[7])
  {
    var rows := Overlapped.runs[7];
    assert rows[..2] == [Row(Failure, 0), Row(Failure, 2)] && rows[..2][..1] == [Row(Failure, 0)];
    assert Latest(rows[..2]) == 1;
  }
}
