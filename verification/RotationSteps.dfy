/**
  The rotation transaction statement by statement, against the statement that
  revokes an account's refresh tokens and the mark of a deletion, all under READ
  COMMITTED. Sessions takes the rotation as one step; this module proves what that
  leaves open, exactly.

  A revocation sees the rows that were committed when it began. It waits for a row
  that a rotation has spent and not yet committed, and a rotation waits for a row
  that a revocation has taken. Expiry is left to Abort.
*/
module RotationSteps {
  type UserId = nat
  type TokenId = nat

  /** A committed row of refresh_tokens. */
  datatype Row = Row(user: UserId, spent: bool)

  /** Where Refresh is. From Spent on its transaction holds the lock on the token's row. */
  datatype Rotation =
    | Idle
    | Looked(token: TokenId, user: UserId)
    | Spent(token: TokenId, user: UserId)
    | Checked(token: TokenId, user: UserId)
    | Inserted(token: TokenId, user: UserId, successor: TokenId)

  /** `seen` are the rows it began with, `taken` those it has locked; `late` is history: rows committed since it began. */
  datatype Revocation = NoRevocation | Deleting(user: UserId, seen: set<TokenId>, taken: set<TokenId>, late: set<TokenId>)

  datatype Holder = OfRotation(p: nat) | OfRevocation(r: nat)

  datatype State = State(
    tokens: map<TokenId, Row>, next: TokenId, marked: set<UserId>, locks: map<TokenId, Holder>,
    rotations: seq<Rotation>, revocations: seq<Revocation>)

  datatype Action =
    | Look(p: nat, token: TokenId)
    | Spend(p: nat)
    | Check(p: nat)
    | Insert(p: nat)
    | Commit(p: nat)
    | Abort(p: nat)
    | SignIn(user: UserId)
    | Begin(r: nat, user: UserId)
    | Take(r: nat, token: TokenId)
    | Finish(r: nat)
    | Cancel(r: nat)
    | Mark(user: UserId)

  // ---------------------------------------------------------------------------
  // Steps
  // ---------------------------------------------------------------------------

  function TokensOf(tokens: map<TokenId, Row>, u: UserId): set<TokenId> { set t | t in tokens && tokens[t].user == u }

  predicate Holding(pc: Rotation) { pc.Spent? || pc.Checked? || pc.Inserted? }

  /** A row is committed: the revocations of its account that are under way have not seen it. */
  function Noted(revocations: seq<Revocation>, t: TokenId, u: UserId): seq<Revocation> {
    seq(|revocations|, r requires 0 <= r < |revocations| =>
      if revocations[r].Deleting? && revocations[r].user == u then revocations[r].(late := revocations[r].late + {t}) else revocations[r])
  }

  predicate Enabled(s: State, a: Action) {
    match a
    case Look(p, t) => p < |s.rotations| && s.rotations[p].Idle? && t in s.tokens && !s.tokens[t].spent
    case Spend(p) => p < |s.rotations| && s.rotations[p].Looked? && s.rotations[p].token !in s.locks
    case Check(p) => p < |s.rotations| && s.rotations[p].Spent?
    case Insert(p) => p < |s.rotations| && s.rotations[p].Checked?
    case Commit(p) => p < |s.rotations| && s.rotations[p].Inserted?
    case Abort(p) => p < |s.rotations|
    case SignIn(_) => true
    case Begin(r, _) => r < |s.revocations| && s.revocations[r].NoRevocation?
    case Take(r, t) =>
      && r < |s.revocations| && s.revocations[r].Deleting? && t in s.revocations[r].seen - s.revocations[r].taken
      && t in s.tokens && t !in s.locks
    case Finish(r) =>
      && r < |s.revocations| && s.revocations[r].Deleting?
      && forall t :: t in s.revocations[r].seen && t in s.tokens ==> t in s.revocations[r].taken
    case Cancel(r) => r < |s.revocations| && s.revocations[r].Deleting?
    case Mark(_) => true
  }

  /** Rotation p ends, and lets its lock go. */
  function Ended(s: State, p: nat): State
    requires p < |s.rotations|
  {
    s.(rotations := s.rotations[p := Idle],
       locks := if Holding(s.rotations[p]) then s.locks - {s.rotations[p].token} else s.locks)
  }

  function Apply(s: State, a: Action): State
    requires Enabled(s, a)
  {
    match a
    case Look(p, t) => s.(rotations := s.rotations[p := Looked(t, s.tokens[t].user)])
    case Spend(p) =>
      var pc := s.rotations[p];
      if pc.token in s.tokens && !s.tokens[pc.token].spent
      then s.(rotations := s.rotations[p := Spent(pc.token, pc.user)], locks := s.locks[pc.token := OfRotation(p)])
      else Ended(s, p)
    case Check(p) =>
      var pc := s.rotations[p];
      if pc.user in s.marked then Ended(s, p) else s.(rotations := s.rotations[p := Checked(pc.token, pc.user)])
    case Insert(p) =>
      var pc := s.rotations[p];
      s.(rotations := s.rotations[p := Inserted(pc.token, pc.user, s.next)], next := s.next + 1)
    case Commit(p) =>
      var pc := s.rotations[p];
      Ended(s, p).(tokens := s.tokens[pc.token := Row(pc.user, true)][pc.successor := Row(pc.user, false)],
                   revocations := Noted(s.revocations, pc.successor, pc.user))
    case Abort(p) => Ended(s, p)
    case SignIn(u) =>
      s.(tokens := s.tokens[s.next := Row(u, false)], next := s.next + 1, revocations := Noted(s.revocations, s.next, u))
    case Begin(r, u) => s.(revocations := s.revocations[r := Deleting(u, TokensOf(s.tokens, u), {}, {})])
    case Take(r, t) =>
      s.(revocations := s.revocations[r := s.revocations[r].(taken := s.revocations[r].taken + {t})],
         locks := s.locks[t := OfRevocation(r)])
    case Finish(r) =>
      s.(tokens := s.tokens - s.revocations[r].taken, locks := s.locks - s.revocations[r].taken,
         revocations := s.revocations[r := NoRevocation])
    case Cancel(r) => s.(locks := s.locks - s.revocations[r].taken, revocations := s.revocations[r := NoRevocation])
    case Mark(u) => s.(marked := s.marked + {u})
  }

  // ---------------------------------------------------------------------------
  // Invariant
  // ---------------------------------------------------------------------------

  /** A rotation that has spent its token holds the row; what it inserted nobody else has. */
  predicate RotationOk(s: State, p: nat)
    requires p < |s.rotations|
  {
    var pc := s.rotations[p];
    && (pc.Looked? && pc.token in s.tokens ==> s.tokens[pc.token].user == pc.user)
    && (Holding(pc) ==> pc.token in s.locks && s.locks[pc.token] == OfRotation(p) && pc.token in s.tokens && s.tokens[pc.token] == Row(pc.user, false))
    && (pc.Looked? ==> pc.token < s.next && !Pending(s.rotations, pc.token))
    && (pc.Inserted? ==> pc.successor < s.next && pc.successor !in s.tokens)
  }

  predicate SuccessorsApart(rotations: seq<Rotation>) {
    forall p, q :: 0 <= p < q < |rotations| && rotations[p].Inserted? && rotations[q].Inserted? ==>
      rotations[p].successor != rotations[q].successor
  }

  /** A revocation has locked what it took, and every row of the account is one it saw or one committed since. */
  predicate RevocationOk(s: State, r: nat)
    requires r < |s.revocations|
  {
    var pc := s.revocations[r];
    pc.Deleting? ==>
      && pc.taken <= pc.seen && (forall t :: t in pc.taken ==> t in s.locks && s.locks[t] == OfRevocation(r) && t in s.tokens)
      && (forall t :: t in s.tokens && s.tokens[t].user == pc.user ==> t in pc.seen || t in pc.late)
      && (forall t :: t in pc.seen ==> t < s.next && t !in pc.late && !Pending(s.rotations, t))
      && (forall t :: t in pc.seen && t in s.tokens ==> s.tokens[t].user == pc.user)
  }

  predicate LockOk(s: State, t: TokenId)
    requires t in s.locks
  {
    match s.locks[t]
    case OfRotation(p) => p < |s.rotations| && Holding(s.rotations[p]) && s.rotations[p].token == t
    case OfRevocation(r) => r < |s.revocations| && s.revocations[r].Deleting? && t in s.revocations[r].taken
  }

  /** The row is inserted by a rotation that has not committed. */
  predicate Pending(rotations: seq<Rotation>, t: TokenId) {
    exists p | 0 <= p < |rotations| :: rotations[p].Inserted? && rotations[p].successor == t
  }

  predicate Inv(s: State) {
    && (forall t :: t in s.tokens ==> t < s.next) && SuccessorsApart(s.rotations)
    && (forall p :: 0 <= p < |s.rotations| ==> RotationOk(s, p))
    && (forall r :: 0 <= r < |s.revocations| ==> RevocationOk(s, r))
    && (forall t :: t in s.locks ==> LockOk(s, t))
  }

  function Start(rotations: nat, revocations: nat): State {
    State(map[], 0, {}, map[], seq(rotations, _ => Idle), seq(revocations, _ => NoRevocation))
  }

  lemma StartOk(rotations: nat, revocations: nat)
    ensures Inv(Start(rotations, revocations))
  {
  }

  lemma StepKeeps(s: State, a: Action)
    requires Inv(s) && Enabled(s, a)
    ensures Inv(Apply(s, a))
  {
    match a
    case Commit(p) => CommitKeeps(s, p);
    case SignIn(u) => SignInKeeps(s, u);
    case Begin(r, u) => BeginKeeps(s, r, u);
    case Take(r, t) => TakeKeeps(s, r, t);
    case Finish(r) => RevocationEndKeeps(s, r);
    case Cancel(r) => RevocationEndKeeps(s, r);
    case _ => RotationStepKeeps(s, a);
  }

  /** Rotations change, and no row that was inserted before becomes pending. */
  lemma NothingPends(s: State, t: State)
    requires forall p :: 0 <= p < |t.rotations| && t.rotations[p].Inserted? ==>
               t.rotations[p].successor >= s.next || (p < |s.rotations| && t.rotations[p] == s.rotations[p])
    ensures forall x: nat :: x < s.next && Pending(t.rotations, x) ==> Pending(s.rotations, x)
  {
    forall x: nat | x < s.next && Pending(t.rotations, x) ensures Pending(s.rotations, x) {
      var p :| 0 <= p < |t.rotations| && t.rotations[p].Inserted? && t.rotations[p].successor == x;
      assert s.rotations[p].Inserted? && s.rotations[p].successor == x;
    }
  }

  lemma StoredIsNotPending(s: State)
    requires Inv(s)
    ensures forall t :: t in s.tokens ==> !Pending(s.rotations, t)
  {
    forall t | t in s.tokens ensures !Pending(s.rotations, t) {
      forall p | 0 <= p < |s.rotations| ensures !(s.rotations[p].Inserted? && s.rotations[p].successor == t) {
        assert RotationOk(s, p);
      }
    }
  }

  lemma RotationStepKeeps(s: State, a: Action)
    requires Inv(s) && Enabled(s, a) && (a.Look? || a.Spend? || a.Check? || a.Insert? || a.Abort? || a.Mark?)
    ensures Inv(Apply(s, a))
  {
    if a.Look? || a.Mark? { LookKeeps(s, a); }
    else if a.Insert? { InsertKeeps(s, a.p); }
    else if a.Abort? || (a.Check? && s.rotations[a.p].user in s.marked) { EndedKeeps(s, a.p); }
    else if a.Spend? { SpendKeeps(s, a.p); }
    else { CheckKeeps(s, a.p); }
  }

  lemma LookKeeps(s: State, a: Action)
    requires Inv(s) && Enabled(s, a) && (a.Look? || a.Mark?)
    ensures Inv(Apply(s, a))
  {
    var t := Apply(s, a);
    NothingPends(s, t);
    StoredIsNotPending(s);
    forall p | 0 <= p < |t.rotations| ensures RotationOk(t, p) { assert RotationOk(s, p); }
    forall r | 0 <= r < |t.revocations| ensures RevocationOk(t, r) { assert RevocationOk(s, r); }
    forall x | x in t.locks ensures LockOk(t, x) { assert LockOk(s, x); }
  }

  lemma InsertKeeps(s: State, p: nat)
    requires Inv(s) && Enabled(s, Insert(p))
    ensures Inv(Apply(s, Insert(p)))
  {
    var t := Apply(s, Insert(p));
    NothingPends(s, t);
    forall q | 0 <= q < |t.rotations| ensures RotationOk(t, q) { assert RotationOk(s, q); }
    forall r | 0 <= r < |t.revocations| ensures RevocationOk(t, r) { assert RevocationOk(s, r); }
    forall x | x in t.locks ensures LockOk(t, x) { assert LockOk(s, x); }
    forall q, q' | 0 <= q < q' < |t.rotations| && t.rotations[q].Inserted? && t.rotations[q'].Inserted?
      ensures t.rotations[q].successor != t.rotations[q'].successor
    {
      assert RotationOk(s, q) && RotationOk(s, q');
    }
  }

  lemma CheckKeeps(s: State, p: nat)
    requires Inv(s) && Enabled(s, Check(p)) && s.rotations[p].user !in s.marked
    ensures Inv(Apply(s, Check(p)))
  {
    var t := Apply(s, Check(p));
    NothingPends(s, t);
    forall q | 0 <= q < |t.rotations| ensures RotationOk(t, q) { assert RotationOk(s, q); }
    forall r | 0 <= r < |t.revocations| ensures RevocationOk(t, r) { assert RevocationOk(s, r); }
    forall x | x in t.locks ensures LockOk(t, x) { assert LockOk(s, x); }
  }

  lemma SpendKeeps(s: State, p: nat)
    requires Inv(s) && Enabled(s, Spend(p))
    ensures Inv(Apply(s, Spend(p)))
  {
    var pc, t := s.rotations[p], Apply(s, Spend(p));
    if pc.token in s.tokens && !s.tokens[pc.token].spent {
      NothingPends(s, t);
      assert RotationOk(s, p);
      forall q | 0 <= q < |t.rotations| ensures RotationOk(t, q) { assert RotationOk(s, q); }
      forall r | 0 <= r < |t.revocations| ensures RevocationOk(t, r) { assert RevocationOk(s, r); }
      forall x | x in t.locks ensures LockOk(t, x) { assert x in s.locks ==> LockOk(s, x); }
    } else {
      EndedKeeps(s, p);
    }
  }

  lemma EndedKeeps(s: State, p: nat)
    requires Inv(s) && p < |s.rotations|
    ensures Inv(Ended(s, p))
  {
    var t := Ended(s, p);
    NothingPends(s, t);
    assert RotationOk(s, p);
    forall q | 0 <= q < |t.rotations| ensures RotationOk(t, q) { assert RotationOk(s, q); }
    forall r | 0 <= r < |t.revocations| ensures RevocationOk(t, r) { assert RevocationOk(s, r); }
    forall x | x in t.locks ensures LockOk(t, x) { assert LockOk(s, x); }
  }

  lemma BeginKeeps(s: State, r: nat, u: UserId)
    requires Inv(s) && Enabled(s, Begin(r, u))
    ensures Inv(Apply(s, Begin(r, u)))
  {
    var t := Apply(s, Begin(r, u));
    StoredIsNotPending(s);
    forall p | 0 <= p < |t.rotations| ensures RotationOk(t, p) { assert RotationOk(s, p); }
    forall q | 0 <= q < |t.revocations| ensures RevocationOk(t, q) { assert q != r ==> RevocationOk(s, q); }
    forall x | x in t.locks ensures LockOk(t, x) { assert LockOk(s, x); }
  }

  lemma TakeKeeps(s: State, r: nat, token: TokenId)
    requires Inv(s) && Enabled(s, Take(r, token))
    ensures Inv(Apply(s, Take(r, token)))
  {
    var t := Apply(s, Take(r, token));
    forall p | 0 <= p < |t.rotations| ensures RotationOk(t, p) { assert RotationOk(s, p); }
    forall q | 0 <= q < |t.revocations| ensures RevocationOk(t, q) { assert RevocationOk(s, q); }
    forall x | x in t.locks ensures LockOk(t, x) { assert x in s.locks ==> LockOk(s, x); }
  }

  lemma RevocationEndKeeps(s: State, r: nat)
    requires Inv(s) && r < |s.revocations| && s.revocations[r].Deleting?
    ensures Enabled(s, Finish(r)) ==> Inv(Apply(s, Finish(r)))
    ensures Inv(Apply(s, Cancel(r)))
  {
    assert RevocationOk(s, r);
    forall p | 0 <= p < |s.rotations| ensures Holding(s.rotations[p]) ==> s.rotations[p].token !in s.revocations[r].taken {
      assert RotationOk(s, p);
    }
    EndKeepsLocks(s, r, s.tokens);
    if Enabled(s, Finish(r)) { EndKeepsLocks(s, r, s.tokens - s.revocations[r].taken); }
  }

  /** A revocation ends; the rows it took go, or stay. */
  lemma EndKeepsLocks(s: State, r: nat, tokens: map<TokenId, Row>)
    requires Inv(s) && r < |s.revocations| && s.revocations[r].Deleting?
    requires tokens == s.tokens || tokens == s.tokens - s.revocations[r].taken
    requires forall p :: 0 <= p < |s.rotations| && Holding(s.rotations[p]) ==> s.rotations[p].token !in s.revocations[r].taken
    ensures Inv(s.(tokens := tokens, locks := s.locks - s.revocations[r].taken, revocations := s.revocations[r := NoRevocation]))
  {
    var t := s.(tokens := tokens, locks := s.locks - s.revocations[r].taken, revocations := s.revocations[r := NoRevocation]);
    assert RevocationOk(s, r);
    forall p | 0 <= p < |t.rotations| ensures RotationOk(t, p) { assert RotationOk(s, p); }
    forall q | 0 <= q < |t.revocations| ensures RevocationOk(t, q) { assert q != r ==> RevocationOk(s, q); }
    forall x | x in t.locks ensures LockOk(t, x) { assert LockOk(s, x); }
  }

  lemma SignInKeeps(s: State, u: UserId)
    requires Inv(s)
    ensures Inv(Apply(s, SignIn(u)))
  {
    var t := Apply(s, SignIn(u));
    forall p | 0 <= p < |t.rotations| ensures RotationOk(t, p) { assert RotationOk(s, p); }
    forall r | 0 <= r < |t.revocations| ensures RevocationOk(t, r) { assert RevocationOk(s, r); }
    forall x | x in t.locks ensures LockOk(t, x) { assert LockOk(s, x); }
  }

  lemma CommitKeeps(s: State, p: nat)
    requires Inv(s) && Enabled(s, Commit(p))
    ensures Inv(Apply(s, Commit(p)))
  {
    var t := Apply(s, Commit(p));
    assert RotationOk(s, p) && Pending(s.rotations, s.rotations[p].successor);
    NothingPends(s, t);
    forall q | 0 <= q < |t.rotations| ensures RotationOk(t, q) { assert RotationOk(s, q); }
    forall r | 0 <= r < |t.revocations| ensures RevocationOk(t, r) { assert RevocationOk(s, r); }
    forall x | x in t.locks ensures LockOk(t, x) { assert LockOk(s, x); }
  }

  /** A rotation gets on with a token that is stored and unspent, and past the check of an account that is not marked; else it ends. */
  lemma GetsOnExactly(s: State, p: nat)
    ensures Enabled(s, Spend(p)) ==>
              var t := s.rotations[p].token;
              Apply(s, Spend(p)).rotations[p] == if t in s.tokens && !s.tokens[t].spent then Spent(t, s.rotations[p].user) else Idle
    ensures Enabled(s, Check(p)) ==>
              Apply(s, Check(p)).rotations[p] ==
              if s.rotations[p].user !in s.marked then Checked(s.rotations[p].token, s.rotations[p].user) else Idle
  {
  }

  // ---------------------------------------------------------------------------
  // Runs
  // ---------------------------------------------------------------------------

  predicate StepAt(run: seq<State>, acts: seq<Action>, i: nat)
    requires i < |acts| && i + 1 < |run|
  {
    Enabled(run[i], acts[i]) && run[i + 1] == Apply(run[i], acts[i])
  }

  ghost predicate IsRun(run: seq<State>, acts: seq<Action>) {
    && |run| == |acts| + 1 && (exists n, m :: run[0] == Start(n, m))
    && forall i: nat | i < |acts| :: StepAt(run, acts, i)
  }

  lemma {:induction false} RunKeeps(run: seq<State>, acts: seq<Action>, i: nat)
    requires IsRun(run, acts) && i < |run|
    ensures Inv(run[i])
  {
    if i == 0 {
      var n, m :| run[0] == Start(n, m);
      StartOk(n, m);
    } else {
      RunKeeps(run, acts, i - 1);
      assert StepAt(run, acts, i - 1);
      StepKeeps(run[i - 1], acts[i - 1]);
    }
  }

  // ---------------------------------------------------------------------------
  // What a revocation leaves
  // ---------------------------------------------------------------------------

  /** When a revocation ends, the account is left with exactly the tokens that were committed since it began. */
  lemma LeavesExactlyTheLate(s: State, r: nat)
    requires Inv(s) && Enabled(s, Finish(r))
    ensures TokensOf(Apply(s, Finish(r)).tokens, s.revocations[r].user) ==
            set t | t in s.revocations[r].late && t in s.tokens && s.tokens[t].user == s.revocations[r].user
  {
    assert RevocationOk(s, r);
  }

  /**
    A token is committed behind a revocation's back in exactly two ways: a sign-in
    stores it, or a rotation of the account commits, which then holds the lock on
    the token it spent, so that the revocation has not taken that one.
  */
  lemma LateExactly(s: State, a: Action, r: nat, t: TokenId)
    requires Inv(s) && Enabled(s, a) && r < |s.revocations| && s.revocations[r].Deleting? && t !in s.revocations[r].late
    requires Apply(s, a).revocations[r].Deleting?
    ensures t in Apply(s, a).revocations[r].late <==>
            || (a.SignIn? && a.user == s.revocations[r].user && t == s.next)
            || (a.Commit? && s.rotations[a.p].user == s.revocations[r].user && t == s.rotations[a.p].successor)
    ensures a.Commit? ==> s.rotations[a.p].token !in s.revocations[r].taken
  {
    if a.Commit? { assert RotationOk(s, a.p) && RevocationOk(s, r); }
  }

  /** The token is gone for good: it is not stored, and nobody is about to store it. */
  predicate Gone(s: State, t: TokenId) { t < s.next && t !in s.tokens && !Pending(s.rotations, t) }

  lemma StaysGone(s: State, a: Action, t: TokenId)
    requires Inv(s) && Enabled(s, a) && Gone(s, t)
    ensures Gone(Apply(s, a), t)
  {
    if a.Commit? {
      assert RotationOk(s, a.p) && Pending(s.rotations, s.rotations[a.p].successor);
      assert s.rotations[a.p].token in s.tokens;
    }
    NothingPends(s, Apply(s, a));
  }

  lemma {:induction false} GoneForGood(run: seq<State>, acts: seq<Action>, i: nat, j: nat, t: TokenId)
    requires IsRun(run, acts) && i <= j < |run| && Gone(run[i], t)
    ensures Gone(run[j], t)
    decreases j - i
  {
    if i < j {
      GoneForGood(run, acts, i, j - 1, t);
      RunKeeps(run, acts, j - 1);
      assert StepAt(run, acts, j - 1);
      StaysGone(run[j - 1], acts[j - 1], t);
    }
  }

  lemma SeenIsGone(s: State, r: nat, t: TokenId)
    requires Inv(s) && Enabled(s, Finish(r)) && t in s.revocations[r].seen
    ensures Gone(Apply(s, Finish(r)), t)
  {
    assert RevocationOk(s, r);
  }

  /** Once a revocation ended, no rotation ever commits with a token that was committed when it began. */
  lemma SeenIsFinal(run: seq<State>, acts: seq<Action>, i: nat, k: nat)
    requires IsRun(run, acts) && i < k < |acts| && StepAt(run, acts, i) && acts[i].Finish?
    requires StepAt(run, acts, k) && acts[k].Commit?
    ensures run[k].rotations[acts[k].p].token !in run[i].revocations[acts[i].r].seen
  {
    var t := run[k].rotations[acts[k].p].token;
    RunKeeps(run, acts, i);
    RunKeeps(run, acts, k);
    assert RotationOk(run[k], acts[k].p);
    if t in run[i].revocations[acts[i].r].seen {
      SeenIsGone(run[i], acts[i].r, t);
      GoneForGood(run, acts, i + 1, k, t);
    }
  }

  // ---------------------------------------------------------------------------
  // What a mark leaves
  // ---------------------------------------------------------------------------

  /** The rotation has read the account as active. */
  predicate PastCheck(pc: Rotation, u: UserId) { (pc.Checked? || pc.Inserted?) && pc.user == u }

  lemma StepPastCheck(s: State, a: Action, p: nat, u: UserId)
    requires Enabled(s, a) && p < |s.rotations| && u in s.marked
    ensures u in Apply(s, a).marked && |Apply(s, a).rotations| == |s.rotations|
    ensures PastCheck(Apply(s, a).rotations[p], u) ==> PastCheck(s.rotations[p], u) && Apply(s, a).rotations[p].token == s.rotations[p].token
  {
  }

  /**
    A refresh of a marked account commits only in a rotation that had read the
    account before the mark, and that rotation is still at the same token.
  */
  lemma {:induction false} LateRefreshWasChecked(run: seq<State>, acts: seq<Action>, i: nat, k: nat, p: nat, u: UserId)
    requires IsRun(run, acts) && i <= k < |run| && u in run[i].marked
    requires p < |run[k].rotations| && PastCheck(run[k].rotations[p], u)
    ensures p < |run[i].rotations| && PastCheck(run[i].rotations[p], u) && run[i].rotations[p].token == run[k].rotations[p].token
    decreases k - i
  {
    if i < k {
      MarkStays(run, acts, i, k - 1, u);
      assert StepAt(run, acts, k - 1);
      StepPastCheck(run[k - 1], acts[k - 1], p, u);
      LateRefreshWasChecked(run, acts, i, k - 1, p, u);
    }
  }

  lemma {:induction false} MarkStays(run: seq<State>, acts: seq<Action>, i: nat, k: nat, u: UserId)
    requires IsRun(run, acts) && i <= k < |run| && u in run[i].marked
    ensures u in run[k].marked && |run[k].rotations| == |run[i].rotations|
    decreases k - i
  {
    if i < k {
      MarkStays(run, acts, i, k - 1, u);
      assert StepAt(run, acts, k - 1);
    }
  }

  /** And every such rotation can still commit: that is exactly what the mark leaves open. */
  lemma CheckedCanCommit(s: State, p: nat, u: UserId) returns (t: State)
    requires Inv(s) && p < |s.rotations| && PastCheck(s.rotations[p], u)
    ensures t == if s.rotations[p].Inserted? then s else Apply(s, Insert(p))
    ensures Enabled(t, Commit(p)) && t.rotations[p].user == u && t.rotations[p].token == s.rotations[p].token
    ensures t.rotations[p].successor in Apply(t, Commit(p)).tokens
  {
    t := if s.rotations[p].Inserted? then s else Apply(s, Insert(p));
  }

  // ---------------------------------------------------------------------------
  // An example
  // ---------------------------------------------------------------------------

  lemma Extend(run: seq<State>, acts: seq<Action>, a: Action) returns (longer: seq<State>, more: seq<Action>)
    requires IsRun(run, acts) && Enabled(run[|acts|], a)
    ensures IsRun(longer, more) && more == acts + [a] && longer[|more|] == Apply(run[|acts|], a)
  {
    longer, more := run + [Apply(run[|acts|], a)], acts + [a];
    forall i: nat | i < |more| ensures StepAt(longer, more, i) { assert i < |acts| ==> StepAt(run, acts, i); }
  }

  /** A rotation that is about to commit. */
  const InFlight := State(map[0 := Row(7, false)], 2, {}, map[0 := OfRotation(0)], [Inserted(0, 7, 1)], [NoRevocation])

  lemma InFlightIsReached() returns (run: seq<State>, acts: seq<Action>)
    ensures IsRun(run, acts) && run[|acts|] == InFlight
  {
    run, acts := [Start(1, 1)], [];
    run, acts := Extend(run, acts, SignIn(7));
    run, acts := Extend(run, acts, Look(0, 0));
    run, acts := Extend(run, acts, Spend(0));
    run, acts := Extend(run, acts, Check(0));
    run, acts := Extend(run, acts, Insert(0));
  }

  /** A revocation that begins before it commits deletes the spent token and leaves its successor. */
  lemma SuccessorSurvives() returns (run: seq<State>, acts: seq<Action>)
    ensures IsRun(run, acts) && acts != [] && acts[|acts| - 1] == Finish(0)
    ensures run[|acts|].tokens == map[1 := Row(7, false)]
  {
    run, acts := InFlightIsReached();
    run, acts := Extend(run, acts, Begin(0, 7));
    run, acts := Extend(run, acts, Commit(0));
    run, acts := Extend(run, acts, Take(0, 0));
    run, acts := Extend(run, acts, Finish(0));
  }
}
