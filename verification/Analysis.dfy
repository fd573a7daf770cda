/**
  Runs of a conversation's analysis: Submit and Reanalyze create them, a queue
  brings them to workers, and workers score them and record the outcome.

  One step is one statement or transaction end, one broker call, or one call of
  the scoring service. Calls fail with or without effect; requests and workers
  stop anywhere; the broker takes a delivery back whenever its connection breaks.
  The publisher tries a second time on a fresh connection, so a run may be on the
  queue twice.
*/
module Analysis {
  import opened Common

  datatype Status = Pending | Running | Succeeded | Failure

  /** created is when the transaction that inserted the row began. */
  datatype Row = Row(status: Status, created: nat)

  /** The index-th run of a conversation, in the order of insertion. */
  datatype Run = Run(conv: nat, index: nat)

  datatype Client =
    | NoRequest
    | Waiting(conv: nat, begun: nat)                          // Reanalyze waits for the row lock
    | Locked(conv: nat, begun: nat)
    | Deciding(conv: nat, begun: nat)                         // its read let it add a run
    | Publishing(run: Run, guarded: bool, again: bool)        // guarded: a failed publish may only fail a pending run
    | Cleanup(run: Run, guarded: bool)

  datatype Stage = Claiming | Scoring | Completing | Failing | Acking | Nacking

  /** last says that a failure is to be recorded; held that the broker still counts the message as this worker's. */
  datatype Worker = NoJob | Working(stage: Stage, job: nat, run: Run, last: bool, held: bool)

  datatype Place = Ready(redelivered: bool) | Out(worker: nat)

  /** A message on the queue. */
  datatype Job = Job(run: Run, place: Place)

  /** History of one publish of a run: who made it, how it went, and the message it left if it had an effect. */
  datatype Attempt = Attempt(client: nat, o: Outcome, job: nat)

  datatype State = State(
    runs: map<nat, seq<Row>>, locks: map<nat, nat>, clock: nat,
    clients: seq<Client>, workers: seq<Worker>,
    jobs: map<nat, Job>, nextJob: nat, attempts: History)

  datatype Action =
    | Submit(p: nat, conv: nat)
    | Begin(p: nat, conv: nat)
    | Lock(p: nat)
    | Read(p: nat)
    | Commit(p: nat)
    | GiveUp(p: nat)
    | Publish(p: nat, o: Outcome, retry: bool)
    | Clean(p: nat, o: Outcome)
    | Deliver(w: nat, id: nat)
    | TakeBack(w: nat)
    | Claim(w: nat, o: Outcome)
    | Score(w: nat, ok: bool)
    | Complete(w: nat, o: Outcome)
    | Fail(w: nat, o: Outcome)
    | Ack(w: nat)
    | Nack(w: nat)
    | Crash(w: nat)

  // ---------------------------------------------------------------------------
  // Rows
  // ---------------------------------------------------------------------------

  predicate Unfinished(st: Status) { st == Pending || st == Running }

  predicate Exists(s: State, r: Run) { r.conv in s.runs && r.index < |s.runs[r.conv]| }

  function StatusOf(s: State, r: Run): Status
    requires Exists(s, r)
  {
    s.runs[r.conv][r.index].status
  }

  predicate Finished(s: State, r: Run) { Exists(s, r) && !Unfinished(StatusOf(s, r)) }

  /** GetLatestAnalysisForConversation: the row created last. */
  function Latest(rows: seq<Row>): (i: nat)
    requires rows != []
    ensures i < |rows| && forall j :: 0 <= j < |rows| ==> rows[j].created <= rows[i].created
  {
    if |rows| == 1 then 0
    else
      var n := |rows| - 1;
      var before := Latest(rows[..n]);
      if rows[before].created <= rows[n].created then n else before
  }

  function SetStatus(s: State, r: Run, st: Status): State
    requires Exists(s, r)
  {
    s.(runs := s.runs[r.conv := s.runs[r.conv][r.index := s.runs[r.conv][r.index].(status := st)]])
  }

  function ClaimAnalysis(s: State, r: Run): State
    requires Exists(s, r)
  {
    if Unfinished(StatusOf(s, r)) then SetStatus(s, r, Running) else s
  }

  type History = map<Run, seq<Attempt>>

  function AttemptsOf(h: History, r: Run): seq<Attempt> {
    if r in h then h[r] else []
  }

  // ---------------------------------------------------------------------------
  // Steps
  // ---------------------------------------------------------------------------

  function Start(clients: nat, workers: nat): State {
    State(map[], map[], 0, seq(clients, _ => NoRequest), seq(workers, _ => NoJob), map[], 0, map[])
  }

  function SetClient(s: State, p: nat, pc: Client): State
    requires p < |s.clients|
  {
    s.(clients := s.clients[p := pc])
  }

  function SetWorker(s: State, w: nat, pc: Worker): State
    requires w < |s.workers|
  {
    s.(workers := s.workers[w := pc])
  }

  function SetJob(s: State, id: nat, j: Job): State { s.(jobs := s.jobs[id := j]) }

  function RemoveJob(s: State, id: nat): State { s.(jobs := s.jobs - {id}) }

  /** One call of the broker by client p, with what it leaves on the queue. */
  function Attempted(s: State, p: nat, r: Run, o: Outcome): State {
    var t := s.(attempts := s.attempts[r := AttemptsOf(s.attempts, r) + [Attempt(p, o, s.nextJob)]]);
    if o == Failed then t else t.(jobs := t.jobs[t.nextJob := Job(r, Ready(false))], nextJob := t.nextJob + 1)
  }

  predicate ClientEnabled(s: State, a: Action) {
    match a
    case Submit(p, conv) => p < |s.clients| && s.clients[p].NoRequest? && conv !in s.runs
    case Begin(p, conv) => p < |s.clients| && s.clients[p].NoRequest? && conv in s.runs
    case Lock(p) => p < |s.clients| && s.clients[p].Waiting? && s.clients[p].conv !in s.locks
    case Read(p) => p < |s.clients| && s.clients[p].Locked? && s.clients[p].conv in s.runs
    case Commit(p) => p < |s.clients| && s.clients[p].Deciding? && s.clients[p].conv in s.runs
    case GiveUp(p) => p < |s.clients|
    case Publish(p, _, _) => p < |s.clients| && s.clients[p].Publishing?
    case Clean(p, _) => p < |s.clients| && s.clients[p].Cleanup? && Exists(s, s.clients[p].run)
    case _ => false
  }

  predicate At(s: State, w: nat, stage: Stage) {
    w < |s.workers| && s.workers[w].Working? && s.workers[w].stage == stage && Exists(s, s.workers[w].run)
  }

  predicate WorkerEnabled(s: State, a: Action) {
    match a
    case Deliver(w, id) => w < |s.workers| && s.workers[w].NoJob? && id in s.jobs && s.jobs[id].place.Ready?
    case TakeBack(w) => w < |s.workers| && s.workers[w].Working? && s.workers[w].held
    case Claim(w, _) => At(s, w, Claiming)
    case Score(w, _) => At(s, w, Scoring)
    case Complete(w, _) => At(s, w, Completing)
    case Fail(w, _) => At(s, w, Failing)
    case Ack(w) => At(s, w, Acking)
    case Nack(w) => At(s, w, Nacking)
    case Crash(w) => w < |s.workers| && s.workers[w].Working?
    case _ => false
  }

  predicate Enabled(s: State, a: Action) { ClientEnabled(s, a) || WorkerEnabled(s, a) }

  function ApplyClient(s: State, a: Action): State
    requires ClientEnabled(s, a)
  {
    match a
    case Submit(p, conv) =>
      SetClient(s.(runs := s.runs[conv := [Row(Pending, s.clock)]], clock := s.clock + 1), p, Publishing(Run(conv, 0), false, false))
    case Begin(p, conv) => SetClient(s.(clock := s.clock + 1), p, Waiting(conv, s.clock))
    case Lock(p) =>
      var pc := s.clients[p];
      SetClient(s.(locks := s.locks[pc.conv := p]), p, Locked(pc.conv, pc.begun))
    case Read(p) =>
      var pc := s.clients[p];
      var rows := s.runs[pc.conv];
      if rows != [] && Unfinished(rows[Latest(rows)].status) then SetClient(s.(locks := s.locks - {pc.conv}), p, NoRequest)
      else SetClient(s, p, Deciding(pc.conv, pc.begun))
    case Commit(p) =>
      var pc := s.clients[p];
      var rows := s.runs[pc.conv];
      SetClient(s.(runs := s.runs[pc.conv := rows + [Row(Pending, pc.begun)]], locks := s.locks - {pc.conv}), p,
                Publishing(Run(pc.conv, |rows|), true, false))
    case GiveUp(p) =>
      var pc := s.clients[p];
      SetClient(if pc.Locked? || pc.Deciding? then s.(locks := s.locks - {pc.conv}) else s, p, NoRequest)
    case Publish(p, o, retry) =>
      var pc := s.clients[p];
      SetClient(Attempted(s, p, pc.run, o), p,
                if o == Done then NoRequest
                else if !pc.again && retry then pc.(again := true) else Cleanup(pc.run, pc.guarded))
    case Clean(p, o) =>
      var pc := s.clients[p];
      SetClient(if o != Failed && (!pc.guarded || StatusOf(s, pc.run) == Pending) then SetStatus(s, pc.run, Failure) else s, p, NoRequest)
  }

  function ApplyWorker(s: State, a: Action): State
    requires WorkerEnabled(s, a)
  {
    match a
    case Deliver(w, id) =>
      var j := s.jobs[id];
      SetWorker(SetJob(s, id, j.(place := Out(w))), w, Working(Claiming, id, j.run, j.place.redelivered, true))
    case TakeBack(w) =>
      var pc := s.workers[w];
      SetWorker(SetJob(s, pc.job, Job(pc.run, Ready(true))), w, pc.(held := false))
    case Claim(w, o) =>
      var pc := s.workers[w];
      SetWorker(if o == Failed then s else ClaimAnalysis(s, pc.run), w,
                pc.(stage := if o != Done then Nacking else if Unfinished(StatusOf(s, pc.run)) then Scoring else Acking))
    case Score(w, ok) =>
      var pc := s.workers[w];
      SetWorker(s, w, pc.(stage := if ok then Completing else if pc.last then Failing else Nacking))
    case Complete(w, o) =>
      var pc := s.workers[w];
      SetWorker(if o == Failed then s else SetStatus(s, pc.run, Succeeded), w, pc.(stage := if o == Done then Acking else Nacking))
    case Fail(w, o) =>
      var pc := s.workers[w];
      SetWorker(if o == Failed then s else SetStatus(s, pc.run, Failure), w, pc.(stage := if o == Done then Acking else Nacking))
    case Ack(w) =>
      var pc := s.workers[w];
      SetWorker(if pc.held then RemoveJob(s, pc.job) else s, w, NoJob)
    case Nack(w) =>
      var pc := s.workers[w];
      SetWorker(if !pc.held then s else if pc.last then RemoveJob(s, pc.job) else SetJob(s, pc.job, Job(pc.run, Ready(true))), w, NoJob)
    case Crash(w) =>
      var pc := s.workers[w];
      SetWorker(if pc.held then SetJob(s, pc.job, Job(pc.run, Ready(true))) else s, w, NoJob)
  }

  function Apply(s: State, a: Action): State
    requires Enabled(s, a)
  {
    if ClientEnabled(s, a) then ApplyClient(s, a) else ApplyWorker(s, a)
  }

  // ---------------------------------------------------------------------------
  // Invariant
  // ---------------------------------------------------------------------------

  /** Only the newest run may be unfinished. */
  predicate OnlyNewest(rows: seq<Row>) {
    rows != [] && forall i :: 0 <= i < |rows| - 1 ==> !Unfinished(rows[i].status)
  }

  /** The read would find a finished run although the newest one is not finished. */
  predicate Misleading(rows: seq<Row>) {
    rows != [] && Unfinished(rows[|rows| - 1].status) && !Unfinished(rows[Latest(rows)].status)
  }

  predicate Creating(pc: Client) { pc.Publishing? || pc.Cleanup? }

  predicate Creates(pc: Client, r: Run) { Creating(pc) && pc.run == r }

  predicate SameRun(a: Client, b: Client) { Creating(a) && Creating(b) && a.run == b.run }

  predicate OneCreator(clients: seq<Client>) {
    forall p, p' :: 0 <= p < p' < |clients| ==> !SameRun(clients[p], clients[p'])
  }

  predicate Holding(pc: Client) { pc.Locked? || pc.Deciding? }

  /** All attempts so far were client p's, and none was known to have worked. */
  predicate AllFailing(attempts: seq<Attempt>, p: nat) {
    forall k :: 0 <= k < |attempts| ==> attempts[k].client == p && attempts[k].o != Done
  }

  predicate ClientOk(s: State, p: nat)
    requires p < |s.clients|
  {
    var pc := s.clients[p];
    && (pc.Waiting? || Holding(pc) ==> pc.conv in s.runs)
    && (Holding(pc) ==> pc.conv in s.locks && s.locks[pc.conv] == p)
    && (pc.Deciding? && pc.conv in s.runs ==> forall i :: 0 <= i < |s.runs[pc.conv]| ==> !Unfinished(s.runs[pc.conv][i].status))
    && (Creating(pc) ==> Exists(s, pc.run) && AllFailing(AttemptsOf(s.attempts, pc.run), p))
    && (pc.Publishing? ==> |AttemptsOf(s.attempts, pc.run)| == if pc.again then 1 else 0)
  }

  predicate LockOk(s: State, c: nat)
    requires c in s.locks
  {
    s.locks[c] < |s.clients| && Holding(s.clients[s.locks[c]]) && s.clients[s.locks[c]].conv == c
  }

  /** The message was left by one of the run's publishes. */
  predicate FromAttempt(h: History, r: Run, id: nat) {
    exists k | 0 <= k < |AttemptsOf(h, r)| :: AttemptsOf(h, r)[k].o != Failed && AttemptsOf(h, r)[k].job == id
  }

  predicate WorkerOk(s: State, w: nat)
    requires w < |s.workers|
  {
    var pc := s.workers[w];
    pc.Working? ==>
      && Exists(s, pc.run) && pc.job < s.nextJob && FromAttempt(s.attempts, pc.run, pc.job)
      && (pc.held ==> pc.job in s.jobs && s.jobs[pc.job] == Job(pc.run, Out(w)))
      && (pc.stage == Acking ==> !Unfinished(StatusOf(s, pc.run)))
  }

  predicate Has(pc: Worker, id: nat) { pc.Working? && pc.held && pc.job == id }

  predicate JobOk(s: State, id: nat)
    requires id in s.jobs
  {
    var j := s.jobs[id];
    && id < s.nextJob && Exists(s, j.run) && FromAttempt(s.attempts, j.run, id)
    && (j.place.Out? ==> j.place.worker < |s.workers| && Has(s.workers[j.place.worker], id))
  }

  /** One client publishes a run, at most twice, and twice only if it was told that the first time failed. */
  predicate AttemptsOk(attempts: seq<Attempt>) {
    && |attempts| <= 2
    && (|attempts| == 2 ==> attempts[0].client == attempts[1].client && attempts[0].o != Done)
  }

  ghost predicate Inv(s: State) {
    && (forall c :: c in s.runs ==> OnlyNewest(s.runs[c]))
    && OneCreator(s.clients)
    && (forall p :: 0 <= p < |s.clients| ==> ClientOk(s, p))
    && (forall c :: c in s.locks ==> LockOk(s, c))
    && (forall w :: 0 <= w < |s.workers| ==> WorkerOk(s, w))
    && (forall id :: id in s.jobs ==> JobOk(s, id))
    && (forall r :: r in s.attempts ==> Exists(s, r) && AttemptsOk(s.attempts[r]))
  }

  lemma StartOk(clients: nat, workers: nat)
    ensures Inv(Start(clients, workers))
  {
  }

  // ---------------------------------------------------------------------------
  // Effects
  // ---------------------------------------------------------------------------

  /** A row changes its status, and not from finished to unfinished. */
  lemma SetStatusKeeps(s: State, r: Run, st: Status)
    requires Inv(s) && Exists(s, r) && (Unfinished(st) ==> Unfinished(StatusOf(s, r)))
    ensures Inv(SetStatus(s, r, st))
  {
    var t := SetStatus(s, r, st);
    assert OnlyNewest(s.runs[r.conv]);
    forall p | 0 <= p < |t.clients| ensures ClientOk(t, p) { assert ClientOk(s, p); }
    forall c | c in t.locks ensures LockOk(t, c) { assert LockOk(s, c); }
    forall w | 0 <= w < |t.workers| ensures WorkerOk(t, w) { assert WorkerOk(s, w); }
    forall id | id in t.jobs ensures JobOk(t, id) { assert JobOk(s, id); }
  }

  /** A worker turns to something else about the same message. */
  lemma HoldKeeps(s: State, w: nat, stage: Stage)
    requires Inv(s) && w < |s.workers| && s.workers[w].Working?
    requires stage == Acking ==> Finished(s, s.workers[w].run)
    ensures Inv(SetWorker(s, w, s.workers[w].(stage := stage)))
  {
    var t := SetWorker(s, w, s.workers[w].(stage := stage));
    forall p | 0 <= p < |t.clients| ensures ClientOk(t, p) { assert ClientOk(s, p); }
    forall c | c in t.locks ensures LockOk(t, c) { assert LockOk(s, c); }
    forall v | 0 <= v < |t.workers| ensures WorkerOk(t, v) { assert WorkerOk(s, v) && WorkerOk(s, w); }
    forall id | id in t.jobs ensures JobOk(t, id) { assert JobOk(s, id); }
  }

  /** What the broker does with a message that worker w takes, has or gives back, and what w then is. */
  lemma MoveJobKeeps(s: State, w: nat, id: nat, place: Place, pc: Worker)
    requires Inv(s) && w < |s.workers| && id in s.jobs
    requires if s.workers[w].Working? then Has(s.workers[w], id) else s.jobs[id].place.Ready?
    requires place.Ready? || (place == Out(w) && Has(pc, id))
    requires pc.Working? ==> pc.job == id && pc.run == s.jobs[id].run && (pc.held ==> place == Out(w))
    requires pc.Working? && pc.stage == Acking ==> Finished(s, pc.run)
    ensures Inv(SetWorker(SetJob(s, id, s.jobs[id].(place := place)), w, pc))
  {
    var t := SetWorker(SetJob(s, id, s.jobs[id].(place := place)), w, pc);
    assert JobOk(s, id) && WorkerOk(s, w);
    forall p | 0 <= p < |t.clients| ensures ClientOk(t, p) { assert ClientOk(s, p); }
    forall c | c in t.locks ensures LockOk(t, c) { assert LockOk(s, c); }
    forall v | 0 <= v < |t.workers| ensures WorkerOk(t, v) { assert WorkerOk(s, v); }
    forall x | x in t.jobs ensures JobOk(t, x) { assert JobOk(s, x); }
  }

  /** A worker is done with the message it holds, which leaves the queue. */
  lemma DropJobKeeps(s: State, w: nat)
    requires Inv(s) && w < |s.workers| && s.workers[w].Working? && s.workers[w].held
    ensures Inv(SetWorker(RemoveJob(s, s.workers[w].job), w, NoJob))
  {
    var t := SetWorker(RemoveJob(s, s.workers[w].job), w, NoJob);
    assert WorkerOk(s, w);
    forall p | 0 <= p < |t.clients| ensures ClientOk(t, p) { assert ClientOk(s, p); }
    forall c | c in t.locks ensures LockOk(t, c) { assert LockOk(s, c); }
    forall v | 0 <= v < |t.workers| ensures WorkerOk(t, v) { assert WorkerOk(s, v); }
    forall x | x in t.jobs ensures JobOk(t, x) { assert JobOk(s, x); }
  }

  /** A worker without a hold stops. */
  lemma LeaveKeeps(s: State, w: nat)
    requires Inv(s) && w < |s.workers| && s.workers[w].Working? && !s.workers[w].held
    ensures Inv(SetWorker(s, w, NoJob))
  {
    var t := SetWorker(s, w, NoJob);
    forall p | 0 <= p < |t.clients| ensures ClientOk(t, p) { assert ClientOk(s, p); }
    forall c | c in t.locks ensures LockOk(t, c) { assert LockOk(s, c); }
    forall v | 0 <= v < |t.workers| ensures WorkerOk(t, v) { assert WorkerOk(s, v); }
    forall x | x in t.jobs ensures JobOk(t, x) { assert JobOk(s, x); }
  }

  /** Rows are only added, and the queue and the workers stay. */
  lemma QueueKeeps(s: State, t: State)
    requires Inv(s) && t.jobs == s.jobs && t.nextJob == s.nextJob && t.attempts == s.attempts && t.workers == s.workers
    requires forall r :: Exists(s, r) ==> Exists(t, r) && StatusOf(t, r) == StatusOf(s, r)
    ensures forall w :: 0 <= w < |t.workers| ==> WorkerOk(t, w)
    ensures forall id :: id in t.jobs ==> JobOk(t, id)
    ensures forall r :: r in t.attempts ==> Exists(t, r) && AttemptsOk(t.attempts[r])
  {
    forall w | 0 <= w < |t.workers| ensures WorkerOk(t, w) { assert WorkerOk(s, w); }
    forall id | id in t.jobs ensures JobOk(t, id) { assert JobOk(s, id); }
  }

  /** A row added for a conversation, by the client that is about to put it on the queue. */
  lemma NewRunKeeps(s: State, t: State, p: nat, conv: nat)
    requires Inv(s) && p < |s.clients| && |t.clients| == |s.clients| && !Creating(s.clients[p])
    requires forall q :: 0 <= q < |s.clients| && q != p ==> t.clients[q] == s.clients[q]
    requires forall q :: 0 <= q < |s.clients| && q != p && Holding(s.clients[q]) ==> s.clients[q].conv != conv
    requires t.workers == s.workers && t.jobs == s.jobs && t.nextJob == s.nextJob && t.attempts == s.attempts
    requires if Holding(s.clients[p]) then t.locks == s.locks - {conv} && s.clients[p].conv == conv else t.locks == s.locks
    requires t.runs.Keys == s.runs.Keys + {conv} && (forall c :: c in s.runs && c != conv ==> t.runs[c] == s.runs[c])
    requires var rows := if conv in s.runs then s.runs[conv] else [];
             && (forall i :: 0 <= i < |rows| ==> !Unfinished(rows[i].status))
             && |t.runs[conv]| == |rows| + 1 && t.runs[conv][..|rows|] == rows
             && t.clients[p].Publishing? && !t.clients[p].again && t.clients[p].run == Run(conv, |rows|)
    ensures Inv(t)
  {
    var rows := if conv in s.runs then s.runs[conv] else [];
    forall i | 0 <= i < |rows| ensures t.runs[conv][i] == rows[i] { assert t.runs[conv][..|rows|][i] == rows[i]; }
    assert Run(conv, |rows|) !in s.attempts;
    forall q | 0 <= q < |t.clients| ensures ClientOk(t, q) { assert ClientOk(s, q); }
    forall q, q' | 0 <= q < q' < |t.clients| ensures !SameRun(t.clients[q], t.clients[q']) {
      assert ClientOk(s, q) && ClientOk(s, q') && !SameRun(s.clients[q], s.clients[q']);
    }
    forall c | c in t.locks ensures LockOk(t, c) { assert LockOk(s, c); }
    QueueKeeps(s, t);
  }

  /** A client moves on without touching a row or the queue. */
  lemma ClientMoveKeeps(s: State, t: State, p: nat)
    requires Inv(s) && p < |s.clients| && |t.clients| == |s.clients|
    requires forall q :: 0 <= q < |s.clients| && q != p ==> t.clients[q] == s.clients[q]
    requires t.runs == s.runs && t.workers == s.workers && t.jobs == s.jobs && t.nextJob == s.nextJob && t.attempts == s.attempts
    requires !Creating(t.clients[p]) && ClientOk(t, p)
    requires forall c :: c in t.locks ==> LockOk(t, c)
    requires forall c :: c in s.locks && s.locks[c] != p ==> c in t.locks && t.locks[c] == s.locks[c]
    ensures Inv(t)
  {
    forall q | 0 <= q < |t.clients| ensures ClientOk(t, q) { assert ClientOk(s, q); }
    forall q, q' | 0 <= q < q' < |t.clients| ensures !SameRun(t.clients[q], t.clients[q']) {
      assert !SameRun(s.clients[q], s.clients[q']);
    }
    QueueKeeps(s, t);
  }

  // ---------------------------------------------------------------------------
  // Steps keep the invariant
  // ---------------------------------------------------------------------------

  lemma DeliverKeeps(s: State, w: nat, id: nat)
    requires Inv(s) && WorkerEnabled(s, Deliver(w, id))
    ensures Inv(ApplyWorker(s, Deliver(w, id)))
  {
    var j := s.jobs[id];
    MoveJobKeeps(s, w, id, Out(w), Working(Claiming, id, j.run, j.place.redelivered, true));
  }

  lemma TakeBackKeeps(s: State, w: nat)
    requires Inv(s) && WorkerEnabled(s, TakeBack(w))
    ensures Inv(ApplyWorker(s, TakeBack(w)))
  {
    var pc := s.workers[w];
    assert WorkerOk(s, w);
    MoveJobKeeps(s, w, pc.job, Ready(true), pc.(held := false));
  }

  lemma ClaimKeeps(s: State, w: nat, o: Outcome)
    requires Inv(s) && WorkerEnabled(s, Claim(w, o))
    ensures Inv(ApplyWorker(s, Claim(w, o)))
  {
    var pc := s.workers[w];
    var open := Unfinished(StatusOf(s, pc.run));
    if o != Failed && open { SetStatusKeeps(s, pc.run, Running); }
    HoldKeeps(if o == Failed then s else ClaimAnalysis(s, pc.run), w, if o != Done then Nacking else if open then Scoring else Acking);
  }

  /** CompleteAnalysis or FailAnalysis, which do not look at the status. */
  lemma StatementKeeps(s: State, w: nat, o: Outcome, st: Status)
    requires Inv(s) && w < |s.workers| && s.workers[w].Working? && Exists(s, s.workers[w].run) && !Unfinished(st)
    ensures var pc := s.workers[w];
            var t := if o == Failed then s else SetStatus(s, pc.run, st);
            Inv(SetWorker(t, w, pc.(stage := if o == Done then Acking else Nacking)))
  {
    var pc := s.workers[w];
    if o != Failed { SetStatusKeeps(s, pc.run, st); }
    HoldKeeps(if o == Failed then s else SetStatus(s, pc.run, st), w, if o == Done then Acking else Nacking);
  }

  lemma LetGoKeeps(s: State, w: nat)
    requires Inv(s) && w < |s.workers| && s.workers[w].Working?
    ensures At(s, w, Acking) ==> Inv(ApplyWorker(s, Ack(w)))
    ensures At(s, w, Nacking) ==> Inv(ApplyWorker(s, Nack(w)))
    ensures Inv(ApplyWorker(s, Crash(w)))
  {
    assert WorkerOk(s, w);
    if s.workers[w].held {
      MoveJobKeeps(s, w, s.workers[w].job, Ready(true), NoJob);
      DropJobKeeps(s, w);
    } else {
      LeaveKeeps(s, w);
    }
  }

  lemma WorkerStepKeeps(s: State, a: Action)
    requires Inv(s) && WorkerEnabled(s, a)
    ensures Inv(ApplyWorker(s, a))
  {
    match a
    case Deliver(w, id) => DeliverKeeps(s, w, id);
    case TakeBack(w) => TakeBackKeeps(s, w);
    case Claim(w, o) => ClaimKeeps(s, w, o);
    case Score(w, ok) => HoldKeeps(s, w, if ok then Completing else if s.workers[w].last then Failing else Nacking);
    case Complete(w, o) => StatementKeeps(s, w, o, Succeeded);
    case Fail(w, o) => StatementKeeps(s, w, o, Failure);
    case Ack(w) => LetGoKeeps(s, w);
    case Nack(w) => LetGoKeeps(s, w);
    case Crash(w) => LetGoKeeps(s, w);
  }

  lemma SubmitKeeps(s: State, p: nat, conv: nat)
    requires Inv(s) && ClientEnabled(s, Submit(p, conv))
    ensures Inv(ApplyClient(s, Submit(p, conv)))
  {
    forall q | 0 <= q < |s.clients| && Holding(s.clients[q]) ensures s.clients[q].conv != conv { assert ClientOk(s, q); }
    NewRunKeeps(s, ApplyClient(s, Submit(p, conv)), p, conv);
  }

  lemma LockKeeps(s: State, p: nat)
    requires Inv(s) && ClientEnabled(s, Lock(p))
    ensures Inv(ApplyClient(s, Lock(p)))
  {
    var t := ApplyClient(s, Lock(p));
    assert ClientOk(s, p);
    forall c | c in t.locks ensures LockOk(t, c) { assert c in s.locks ==> LockOk(s, c); }
    ClientMoveKeeps(s, t, p);
  }

  /** A client ends without a lock, or lets its lock go. */
  lemma EndKeeps(s: State, p: nat)
    requires Inv(s) && p < |s.clients|
    ensures Inv(ApplyClient(s, GiveUp(p)))
  {
    var t := ApplyClient(s, GiveUp(p));
    assert ClientOk(s, p);
    forall c | c in t.locks ensures LockOk(t, c) { assert LockOk(s, c); }
    forall c | c in s.locks && s.locks[c] != p ensures c in t.locks { assert LockOk(s, c); }
    ClientMoveKeeps(s, t, p);
  }

  /**
    A read lets a request add a run without harm exactly if it is not misled: the
    newest run is finished, or the latest one is not.
  */
  lemma ReadKeeps(s: State, p: nat)
    requires Inv(s) && ClientEnabled(s, Read(p))
    ensures Inv(ApplyClient(s, Read(p))) <==> !Misleading(s.runs[s.clients[p].conv])
  {
    var t, rows := ApplyClient(s, Read(p)), s.runs[s.clients[p].conv];
    assert ClientOk(s, p) && OnlyNewest(rows);
    if Unfinished(rows[Latest(rows)].status) {
      EndKeeps(s, p);
      assert t == ApplyClient(s, GiveUp(p));
    } else if Misleading(rows) {
      assert !ClientOk(t, p);
    } else {
      forall c | c in t.locks ensures LockOk(t, c) { assert LockOk(s, c); }
      ClientMoveKeeps(s, t, p);
    }
  }

  lemma CommitKeeps(s: State, p: nat)
    requires Inv(s) && ClientEnabled(s, Commit(p))
    ensures Inv(ApplyClient(s, Commit(p)))
  {
    assert ClientOk(s, p);
    forall q | 0 <= q < |s.clients| && q != p && Holding(s.clients[q]) ensures s.clients[q].conv != s.clients[p].conv {
      assert ClientOk(s, q);
    }
    NewRunKeeps(s, ApplyClient(s, Commit(p)), p, s.clients[p].conv);
  }

  lemma AttemptKeepsJobs(s: State, p: nat, r: Run, o: Outcome)
    requires Inv(s) && Exists(s, r)
    ensures var t := Attempted(s, p, r, o);
            && (forall x, id :: FromAttempt(s.attempts, x, id) ==> FromAttempt(t.attempts, x, id))
            && (forall w :: 0 <= w < |t.workers| ==> WorkerOk(t, w))
            && (forall id :: id in t.jobs ==> JobOk(t, id))
  {
    var t := Attempted(s, p, r, o);
    forall x, id | FromAttempt(s.attempts, x, id) ensures FromAttempt(t.attempts, x, id) {
      var k :| 0 <= k < |AttemptsOf(s.attempts, x)| && AttemptsOf(s.attempts, x)[k].o != Failed && AttemptsOf(s.attempts, x)[k].job == id;
      assert AttemptsOf(t.attempts, x)[k] == AttemptsOf(s.attempts, x)[k];
    }
    forall w | 0 <= w < |t.workers| ensures WorkerOk(t, w) {
      assert WorkerOk(s, w);
      assert s.nextJob in s.jobs ==> JobOk(s, s.nextJob);
    }
    forall id | id in t.jobs ensures JobOk(t, id) {
      if id == s.nextJob && o != Failed {
        assert AttemptsOf(t.attempts, r)[|AttemptsOf(s.attempts, r)|] == Attempt(p, o, id);
      } else {
        assert JobOk(s, id);
      }
    }
  }

  lemma PublishKeeps(s: State, p: nat, o: Outcome, retry: bool)
    requires Inv(s) && ClientEnabled(s, Publish(p, o, retry))
    ensures Inv(ApplyClient(s, Publish(p, o, retry)))
  {
    var t, r := ApplyClient(s, Publish(p, o, retry)), s.clients[p].run;
    assert ClientOk(s, p);
    AttemptKeepsJobs(s, p, r, o);
    PublishKeepsClients(s, p, o, retry);
    forall c | c in t.locks ensures LockOk(t, c) { assert LockOk(s, c); }
    forall w | 0 <= w < |t.workers| ensures WorkerOk(t, w) { assert WorkerOk(Attempted(s, p, r, o), w); }
    forall id | id in t.jobs ensures JobOk(t, id) { assert JobOk(Attempted(s, p, r, o), id); }
  }

  lemma PublishKeepsClients(s: State, p: nat, o: Outcome, retry: bool)
    requires Inv(s) && ClientEnabled(s, Publish(p, o, retry))
    ensures var t := ApplyClient(s, Publish(p, o, retry));
            OneCreator(t.clients) && forall q :: 0 <= q < |t.clients| ==> ClientOk(t, q)
  {
    var t := ApplyClient(s, Publish(p, o, retry));
    assert ClientOk(s, p);
    forall q | 0 <= q < |t.clients| ensures ClientOk(t, q) {
      assert ClientOk(s, q);
      assert q < p ==> !SameRun(s.clients[q], s.clients[p]);
      assert p < q ==> !SameRun(s.clients[p], s.clients[q]);
    }
    forall q, q' | 0 <= q < q' < |t.clients| ensures !SameRun(t.clients[q], t.clients[q']) {
      assert !SameRun(s.clients[q], s.clients[q']);
    }
  }

  lemma CleanKeeps(s: State, p: nat, o: Outcome)
    requires Inv(s) && ClientEnabled(s, Clean(p, o))
    ensures Inv(ApplyClient(s, Clean(p, o)))
  {
    var pc := s.clients[p];
    if o != Failed && (!pc.guarded || StatusOf(s, pc.run) == Pending) {
      SetStatusKeeps(s, pc.run, Failure);
      EndKeeps(SetStatus(s, pc.run, Failure), p);
    } else {
      EndKeeps(s, p);
    }
  }

  /** The step is not a read that is misled. */
  predicate NotMisled(s: State, a: Action) {
    a.Read? && ClientEnabled(s, a) ==> !Misleading(s.runs[s.clients[a.p].conv])
  }

  lemma ClientStepKeeps(s: State, a: Action)
    requires Inv(s) && ClientEnabled(s, a) && NotMisled(s, a)
    ensures Inv(ApplyClient(s, a))
  {
    match a
    case Submit(p, conv) => SubmitKeeps(s, p, conv);
    case Begin(p, conv) =>
      forall c | c in s.locks ensures LockOk(ApplyClient(s, a), c) { assert LockOk(s, c); }
      ClientMoveKeeps(s, ApplyClient(s, a), p);
    case Lock(p) => LockKeeps(s, p);
    case Read(p) => ReadKeeps(s, p);
    case Commit(p) => CommitKeeps(s, p);
    case GiveUp(p) => EndKeeps(s, p);
    case Publish(p, o, retry) => PublishKeeps(s, p, o, retry);
    case Clean(p, o) => CleanKeeps(s, p, o);
  }

  lemma StepKeeps(s: State, a: Action)
    requires Inv(s) && Enabled(s, a) && NotMisled(s, a)
    ensures Inv(Apply(s, a))
  {
    if ClientEnabled(s, a) { ClientStepKeeps(s, a); } else { WorkerStepKeeps(s, a); }
  }
}
