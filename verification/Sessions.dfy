/**
  Refresh tokens on the server: sign-in opens a family, Refresh spends a token
  and issues its successor, a token presented twice revokes the account's
  sessions, and deletion ends them.

  Tokens are random and stored by an injective hash, so a token is modelled by
  its position in the log of everything ever issued. The lookup that opens
  Refresh is one step and the rotation transaction another; in between, and
  between the two steps of a sign-in, anything else may happen.
*/
module Sessions {
  import opened Common

  type UserId = nat
  type TokenId = nat
  type FamilyId = nat

  /** A row of refresh_tokens. */
  datatype Row = Row(user: UserId, family: FamilyId, spent: bool, expiresAt: nat)

  /** History of one issuance; `parent` is the token it was exchanged for. */
  datatype Issue = Issue(user: UserId, family: FamilyId, parent: Option<TokenId>)

  /** Where one API request is. */
  datatype Caller =
    | Idle
    | SigningIn(user: UserId)
    | Looked(token: TokenId, row: Row)

  /** `users` maps each existing account row to whether deleted_at is set; `known` holds every id ever used. */
  datatype State = State(
    now: nat,
    users: map<UserId, bool>,
    rows: map<TokenId, Row>,
    callers: seq<Caller>,
    nextFamily: FamilyId,
    log: seq<Issue>,
    known: set<UserId>)

  datatype Action =
    | ReadAccount(p: nat, u: UserId)
    | OpenSession(p: nat, ttl: nat, o: Outcome)
    | Present(p: nat, t: TokenId)
    | RevokeReused(p: nat, o: Outcome)
    | Rotate(p: nat, ttl: nat, o: Outcome)
    | Abandon(p: nat)
    | CreateUser(u: UserId)
    | MarkDeleted(u: UserId)
    | RevokeAll(u: UserId)
    | DeleteUser(u: UserId)
    | Purge
    | Tick

  predicate Active(s: State, u: UserId) {
    u in s.users && !s.users[u]
  }

  function SetCaller(s: State, p: nat, pc: Caller): State
    requires p < |s.callers|
  {
    s.(callers := s.callers[p := pc])
  }

  /** CreateRefreshToken. */
  function Insert(s: State, issue: Issue, ttl: nat): State {
    s.(rows := s.rows[|s.log| := Row(issue.user, issue.family, false, s.now + ttl)], log := s.log + [issue])
  }

  /** RevokeUserRefreshTokens. */
  function Revoke(s: State, u: UserId): State {
    s.(rows := map t | t in s.rows && s.rows[t].user != u :: s.rows[t])
  }

  /** UseRefreshToken and GetUserByID both find what they need. */
  predicate CanRotate(s: State, t: TokenId) {
    t in s.rows && !s.rows[t].spent && s.rows[t].expiresAt > s.now && Active(s, s.rows[t].user)
  }

  /** The rotation transaction: spend the token and store its successor. */
  function Exchange(s: State, t: TokenId, ttl: nat): State
    requires t in s.rows
  {
    var row := s.rows[t];
    Insert(s.(rows := s.rows[t := row.(spent := true)]), Issue(row.user, row.family, Some(t)), ttl)
  }

  predicate Enabled(s: State, a: Action) {
    match a
    case ReadAccount(p, u) => p < |s.callers| && s.callers[p].Idle? && Active(s, u)
    case OpenSession(p, _, _) => p < |s.callers| && s.callers[p].SigningIn?
    case Present(p, t) => p < |s.callers| && s.callers[p].Idle?
    case RevokeReused(p, _) => p < |s.callers| && s.callers[p].Looked? && s.callers[p].row.spent
    case Rotate(p, _, _) => p < |s.callers| && s.callers[p].Looked? && !s.callers[p].row.spent
    case Abandon(p) => p < |s.callers|
    case CreateUser(u) => u !in s.known
    case MarkDeleted(u) => u in s.users
    case RevokeAll(_) => true
    case DeleteUser(_) => true
    case Purge => true
    case Tick => true
  }

  function Apply(s: State, a: Action): State
    requires Enabled(s, a)
  {
    match a
    case ReadAccount(p, u) => SetCaller(s, p, SigningIn(u))
    case OpenSession(p, ttl, o) =>
      var u := s.callers[p].user;
      // The foreign key refuses a token for an account row that is gone.
      var t := if o == Failed || u !in s.users then s
               else Insert(s, Issue(u, s.nextFamily, None), ttl).(nextFamily := s.nextFamily + 1);
      SetCaller(t, p, Idle)
    case Present(p, t) => if t in s.rows then SetCaller(s, p, Looked(t, s.rows[t])) else s
    case RevokeReused(p, o) =>
      SetCaller(if o == Failed then s else Revoke(s, s.callers[p].row.user), p, Idle)
    case Rotate(p, ttl, o) =>
      var t := s.callers[p].token;
      SetCaller(if o == Failed || !CanRotate(s, t) then s else Exchange(s, t, ttl), p, Idle)
    case Abandon(p) => SetCaller(s, p, Idle)
    case CreateUser(u) => s.(users := s.users[u := false], known := s.known + {u})
    case MarkDeleted(u) => s.(users := s.users[u := true])
    case RevokeAll(u) => Revoke(s, u)
    case DeleteUser(u) => Revoke(s, u).(users := s.users - {u})
    case Purge => s.(rows := map t | t in s.rows && s.rows[t].expiresAt > s.now :: s.rows[t])
    case Tick => s.(now := s.now + 1)
  }

  /** The token a step exchanges for a new one, if it does. */
  function Exchanged(s: State, a: Action): Option<TokenId>
    requires Enabled(s, a)
  {
    if a.Rotate? && a.o != Failed && CanRotate(s, s.callers[a.p].token) then Some(s.callers[a.p].token) else None
  }

  /** The account whose refresh tokens a step deletes, if it does. */
  function Revoked(s: State, a: Action): Option<UserId>
    requires Enabled(s, a)
  {
    match a
    case RevokeReused(p, o) => if o != Failed then Some(s.callers[p].row.user) else None
    case RevokeAll(u) => Some(u)
    case DeleteUser(u) => Some(u)
    case _ => None
  }

  ghost predicate Init(s: State) {
    && s.users.Keys == s.known && s.rows == map[] && s.log == []
    && forall p :: 0 <= p < |s.callers| ==> s.callers[p] == Idle
  }

  ghost predicate StepAt(run: seq<State>, acts: seq<Action>, i: nat)
    requires i + 1 < |run| && i < |acts|
  {
    Enabled(run[i], acts[i]) && run[i + 1] == Apply(run[i], acts[i])
  }

  /** A run and the actions it took. */
  ghost predicate IsRun(run: seq<State>, acts: seq<Action>) {
    && |run| == |acts| + 1 && Init(run[0])
    && forall i: nat | i < |acts| :: StepAt(run, acts, i)
  }

  // ---------------------------------------------------------------------------
  // Invariant
  // ---------------------------------------------------------------------------

  /** No token issued between two positions belongs to the family. */
  predicate NoneBetween(log: seq<Issue>, f: FamilyId, lo: int, hi: int) {
    forall i :: 0 <= i < |log| && lo < i < hi ==> log[i].family != f
  }

  /** The log's families are chains: each token but the first succeeds the one issued just before it. */
  predicate Chained(log: seq<Issue>, b: nat)
    requires b < |log|
  {
    match log[b].parent
    case None => NoneBetween(log, log[b].family, -1, b)
    case Some(p) =>
      && p < b && log[p].family == log[b].family && log[p].user == log[b].user
      && NoneBetween(log, log[b].family, p, b)
  }

  ghost predicate HasSuccessor(log: seq<Issue>, t: TokenId) {
    exists b :: 0 <= b < |log| && log[b].parent == Some(t)
  }

  ghost predicate RowOk(s: State, t: TokenId)
    requires t in s.rows
  {
    var row := s.rows[t];
    && t < |s.log| && row.user == s.log[t].user && row.family == s.log[t].family && row.user in s.users
    && (row.spent <==> HasSuccessor(s.log, t))
    && (!row.spent ==> NoneBetween(s.log, row.family, t, |s.log|))
  }

  ghost predicate CallerOk(s: State, pc: Caller) {
    match pc
    case Idle => true
    case SigningIn(u) => u in s.known
    case Looked(t, row) =>
      && t < |s.log| && row.user == s.log[t].user && row.family == s.log[t].family
      && (row.spent ==> HasSuccessor(s.log, t))
  }

  ghost predicate Inv(s: State) {
    && s.users.Keys <= s.known
    && (forall b :: 0 <= b < |s.log| ==> s.log[b].family < s.nextFamily)
    && (forall b :: 0 <= b < |s.log| ==> Chained(s.log, b))
    && (forall t :: t in s.rows ==> RowOk(s, t))
    && (forall p :: 0 <= p < |s.callers| ==> CallerOk(s, s.callers[p]))
  }

  lemma RevokeKeeps(s: State, u: UserId)
    requires Inv(s)
    ensures Inv(Revoke(s, u))
  {
    forall t | t in Revoke(s, u).rows ensures RowOk(Revoke(s, u), t) {
      assert RowOk(s, t);
    }
  }

  lemma SetCallerKeeps(s: State, p: nat, pc: Caller)
    requires Inv(s) && p < |s.callers| && CallerOk(s, pc)
    ensures Inv(SetCaller(s, p, pc))
  {
    var t := SetCaller(s, p, pc);
    forall i | i in t.rows ensures RowOk(t, i) {
      assert RowOk(s, i);
    }
  }

  /** Appending to the log leaves what is known of its older entries. */
  lemma LogGrows(log: seq<Issue>, issue: Issue, b: nat)
    requires b < |log|
    ensures Chained(log, b) ==> Chained(log + [issue], b)
    ensures HasSuccessor(log + [issue], b) <==> HasSuccessor(log, b) || issue.parent == Some(b)
    ensures issue.family != log[b].family && NoneBetween(log, log[b].family, b, |log|) ==>
              NoneBetween(log + [issue], log[b].family, b, |log| + 1)
  {
    var longer := log + [issue];
    if HasSuccessor(log, b) {
      var c :| 0 <= c < |log| && log[c].parent == Some(b);
      assert longer[c].parent == Some(b);
    }
    if issue.parent == Some(b) { assert longer[|log|].parent == Some(b); }
    if HasSuccessor(longer, b) {
      var c :| 0 <= c < |longer| && longer[c].parent == Some(b);
      assert c < |log| ==> log[c].parent == Some(b);
    }
  }

  /** The newest token of the log has no successor. */
  lemma NewestHasNoSuccessor(log: seq<Issue>, newest: TokenId)
    requires (forall b :: 0 <= b < |log| ==> Chained(log, b)) && newest + 1 >= |log|
    ensures !HasSuccessor(log, newest)
  {
    assert forall b :: 0 <= b < |log| && log[b].parent == Some(newest) ==> !Chained(log, b);
  }

  lemma OpenKeeps(s: State, u: UserId, ttl: nat)
    requires Inv(s) && u in s.users
    ensures Inv(Insert(s, Issue(u, s.nextFamily, None), ttl).(nextFamily := s.nextFamily + 1))
  {
    var issue := Issue(u, s.nextFamily, None);
    var t := Insert(s, issue, ttl).(nextFamily := s.nextFamily + 1);
    forall b | 0 <= b < |t.log| ensures Chained(t.log, b) {
      if b < |s.log| { LogGrows(s.log, issue, b); }
    }
    NewestHasNoSuccessor(t.log, |s.log|);
    forall i | i in t.rows ensures RowOk(t, i) {
      if i != |s.log| { assert RowOk(s, i); LogGrows(s.log, issue, i); }
    }
    forall p | 0 <= p < |t.callers| ensures CallerOk(t, t.callers[p]) {
      assert CallerOk(s, s.callers[p]);
      if t.callers[p].Looked? { LogGrows(s.log, issue, t.callers[p].token); }
    }
  }

  lemma ExchangeKeeps(s: State, t: TokenId, ttl: nat)
    requires Inv(s) && CanRotate(s, t)
    ensures Inv(Exchange(s, t, ttl))
  {
    var issue := Issue(s.rows[t].user, s.rows[t].family, Some(t));
    var v := Exchange(s, t, ttl);
    assert RowOk(s, t);
    assert v.log == s.log + [issue];
    forall b | 0 <= b < |v.log| ensures Chained(v.log, b) {
      if b < |s.log| { LogGrows(s.log, issue, b); }
    }
    NewestHasNoSuccessor(v.log, |s.log|);
    forall i | i in v.rows ensures RowOk(v, i) {
      if i != |s.log| { assert RowOk(s, i); LogGrows(s.log, issue, i); }
    }
    forall p | 0 <= p < |v.callers| ensures CallerOk(v, v.callers[p]) {
      assert CallerOk(s, s.callers[p]);
      if v.callers[p].Looked? { LogGrows(s.log, issue, v.callers[p].token); }
    }
  }

  lemma StepKeeps(s: State, a: Action)
    requires Inv(s) && Enabled(s, a)
    ensures Inv(Apply(s, a))
  {
    match a
    case ReadAccount(p, u) => SetCallerKeeps(s, p, SigningIn(u));
    case OpenSession(p, ttl, o) =>
      var u := s.callers[p].user;
      if o != Failed && u in s.users {
        OpenKeeps(s, u, ttl);
        SetCallerKeeps(Insert(s, Issue(u, s.nextFamily, None), ttl).(nextFamily := s.nextFamily + 1), p, Idle);
      } else { SetCallerKeeps(s, p, Idle); }
    case Present(p, t) =>
      if t in s.rows { assert RowOk(s, t); SetCallerKeeps(s, p, Looked(t, s.rows[t])); }
    case RevokeReused(p, o) =>
      RevokeKeeps(s, s.callers[p].row.user);
      SetCallerKeeps(if o == Failed then s else Revoke(s, s.callers[p].row.user), p, Idle);
    case Rotate(p, ttl, o) =>
      var t := s.callers[p].token;
      if o != Failed && CanRotate(s, t) {
        ExchangeKeeps(s, t, ttl);
        SetCallerKeeps(Exchange(s, t, ttl), p, Idle);
      } else { SetCallerKeeps(s, p, Idle); }
    case Abandon(p) => SetCallerKeeps(s, p, Idle);
    case RevokeAll(u) => RevokeKeeps(s, u);
    case DeleteUser(u) =>
      RevokeKeeps(s, u);
      DeleteKeeps(s, u);
    case _ => RestKeeps(s, a);
  }

  lemma DeleteKeeps(s: State, u: UserId)
    requires Inv(s)
    ensures Inv(Revoke(s, u).(users := s.users - {u}))
  {
    var t := Revoke(s, u).(users := s.users - {u});
    forall i | i in t.rows ensures RowOk(t, i) {
      assert RowOk(s, i);
    }
  }

  lemma RestKeeps(s: State, a: Action)
    requires Inv(s) && Enabled(s, a) && (a.CreateUser? || a.MarkDeleted? || a.Purge? || a.Tick?)
    ensures Inv(Apply(s, a))
  {
    var t := Apply(s, a);
    forall i | i in t.rows ensures RowOk(t, i) {
      assert RowOk(s, i);
    }
    forall p | 0 <= p < |t.callers| ensures CallerOk(t, t.callers[p]) {
      assert CallerOk(s, s.callers[p]);
    }
  }

  lemma {:induction false} RunKeeps(run: seq<State>, acts: seq<Action>, i: nat)
    requires IsRun(run, acts) && i < |run|
    ensures Inv(run[i])
  {
    if i > 0 {
      RunKeeps(run, acts, i - 1);
      assert StepAt(run, acts, i - 1);
      StepKeeps(run[i - 1], acts[i - 1]);
    }
  }

  // ---------------------------------------------------------------------------
  // Main results
  // ---------------------------------------------------------------------------

  /**
    Rotation keeps families linear. At every point of every run, over all
    interleavings: all tokens of a family belong to one account, at most one of
    them is stored unspent, no token was ever exchanged twice, and a stored token
    is spent exactly when another was issued for it.
  */
  lemma FamiliesAreLinear(run: seq<State>, acts: seq<Action>, i: nat)
    requires IsRun(run, acts) && i < |run|
    ensures var s := run[i];
            && (forall t, t' :: 0 <= t < |s.log| && 0 <= t' < |s.log| && s.log[t].family == s.log[t'].family ==>
                  s.log[t].user == s.log[t'].user)
            && (forall t, t' ::
                  (t in s.rows && t' in s.rows && s.rows[t].family == s.rows[t'].family && !s.rows[t].spent && !s.rows[t'].spent) ==>
                  t == t')
            && (forall b, c :: 0 <= b < |s.log| && 0 <= c < |s.log| && s.log[b].parent.Some? && s.log[b].parent == s.log[c].parent ==> b == c)
            && (forall t :: t in s.rows ==> (s.rows[t].spent <==> HasSuccessor(s.log, t)))
  {
    RunKeeps(run, acts, i);
    var s := run[i];
    forall t, t' | 0 <= t < t' < |s.log| && s.log[t].family == s.log[t'].family
      ensures s.log[t].user == s.log[t'].user
    {
      FamilyHasOneUser(s.log, t, t');
    }
    forall t, t' | t in s.rows && t' in s.rows && s.rows[t].family == s.rows[t'].family && !s.rows[t].spent && !s.rows[t'].spent
      ensures t == t'
    {
      assert RowOk(s, t) && RowOk(s, t');
    }
    forall b, c | 0 <= b < |s.log| && 0 <= c < |s.log| && s.log[b].parent.Some? && s.log[b].parent == s.log[c].parent
      ensures b == c
    {
      assert Chained(s.log, b) && Chained(s.log, c);
    }
    forall t | t in s.rows ensures s.rows[t].spent <==> HasSuccessor(s.log, t) {
      assert RowOk(s, t);
    }
  }

  lemma {:induction false} FamilyHasOneUser(log: seq<Issue>, t: TokenId, t': TokenId)
    requires (forall b :: 0 <= b < |log| ==> Chained(log, b)) && t < t' < |log| && log[t].family == log[t'].family
    ensures log[t].user == log[t'].user
  {
    assert Chained(log, t');
    var p := log[t'].parent.value;
    if t < p { FamilyHasOneUser(log, t, p); }
  }

  /** A token that is not stored any more never will be: its position in the log is taken. */
  lemma StepKeepsAbsent(s: State, a: Action, t: TokenId)
    requires Enabled(s, a) && t < |s.log| && t !in s.rows
    ensures t < |Apply(s, a).log| && t !in Apply(s, a).rows
  {
  }

  lemma {:induction false} AbsentForGood(run: seq<State>, acts: seq<Action>, i: nat, j: nat, t: TokenId)
    requires IsRun(run, acts) && i <= j < |run| && t < |run[i].log| && t !in run[i].rows
    ensures t !in run[j].rows && t < |run[j].log|
  {
    if i < j {
      AbsentForGood(run, acts, i, j - 1, t);
      assert StepAt(run, acts, j - 1);
      StepKeepsAbsent(run[j - 1], acts[j - 1], t);
    }
  }

  /**
    Revocation is final. Once an account's refresh tokens have been deleted, by
    the handling of a replay or by a deletion, no later step exchanges a token
    issued to that account before, not even one whose lookup had succeeded.
  */
  lemma RevocationIsFinal(run: seq<State>, acts: seq<Action>, i: nat, j: nat, u: UserId)
    requires IsRun(run, acts) && i < j < |acts|
    requires StepAt(run, acts, i) && Revoked(run[i], acts[i]) == Some(u)
    requires StepAt(run, acts, j) && Exchanged(run[j], acts[j]).Some?
    ensures var t := Exchanged(run[j], acts[j]).value;
            t < |run[j].log| && (run[j].log[t].user == u ==> t >= |run[i].log|)
  {
    var t := Exchanged(run[j], acts[j]).value;
    RunKeeps(run, acts, j);
    RunKeeps(run, acts, i + 1);
    assert RowOk(run[j], t);
    if run[j].log[t].user == u && t < |run[i].log| {
      LogIsStable(run, acts, i + 1, j);
      assert t in run[i + 1].rows ==> RowOk(run[i + 1], t);
      AbsentForGood(run, acts, i + 1, j, t);
    }
  }

  /** The log only grows. */
  lemma {:induction false} LogIsStable(run: seq<State>, acts: seq<Action>, i: nat, j: nat)
    requires IsRun(run, acts) && i <= j < |run|
    ensures run[i].log <= run[j].log && run[i].known <= run[j].known
  {
    if i < j {
      LogIsStable(run, acts, i, j - 1);
      assert StepAt(run, acts, j - 1);
    }
  }

  /** Marked or removed: an account that was there and is not usable any more. */
  predicate Ended(s: State, u: UserId) {
    u in s.known && !Active(s, u)
  }

  lemma {:induction false} EndedForGood(run: seq<State>, acts: seq<Action>, i: nat, j: nat, u: UserId)
    requires IsRun(run, acts) && i <= j < |run| && Ended(run[i], u)
    ensures Ended(run[j], u)
  {
    if i < j {
      EndedForGood(run, acts, i, j - 1, u);
      assert StepAt(run, acts, j - 1);
    }
  }

  /**
    After an account is marked deleted no Refresh ever succeeds for it, not even
    with a token that a sign-in, racing with the deletion, stored after the mark.
  */
  lemma DeletedStaysOut(run: seq<State>, acts: seq<Action>, i: nat, j: nat, u: UserId)
    requires IsRun(run, acts) && i <= j < |acts| && Ended(run[i], u)
    requires StepAt(run, acts, j) && Exchanged(run[j], acts[j]).Some?
    ensures run[j].rows[Exchanged(run[j], acts[j]).value].user != u
  {
    EndedForGood(run, acts, i, j, u);
  }

  predicate NoTokensOf(s: State, u: UserId) {
    forall t :: t in s.rows ==> s.rows[t].user != u
  }

  /**
    Only a replay is treated as one: a request revokes an account's tokens only
    after the token it presented had been exchanged, and then none of the
    account's tokens is left.
  */
  lemma RevokedOnlyOnReplay(run: seq<State>, acts: seq<Action>, i: nat)
    requires IsRun(run, acts) && i < |acts| && StepAt(run, acts, i) && acts[i].RevokeReused?
    ensures HasSuccessor(run[i].log, run[i].callers[acts[i].p].token)
    ensures acts[i].o != Failed ==> NoTokensOf(run[i + 1], run[i].callers[acts[i].p].row.user)
  {
    RunKeeps(run, acts, i);
    assert CallerOk(run[i], run[i].callers[acts[i].p]);
  }

  // ---------------------------------------------------------------------------
  // What is exchanged, and until when
  // ---------------------------------------------------------------------------

  /**
    A rotation issues a successor exactly if its transaction takes effect while the
    token is stored, unspent and unexpired and its account is there and not marked.
    Then the token is spent and the successor follows it, for its own lifetime, and
    no other token changes; otherwise nothing is issued and no token changes.
  */
  lemma RotatesExactly(s: State, p: nat, ttl: nat, o: Outcome)
    requires Inv(s) && Enabled(s, Rotate(p, ttl, o))
    ensures var t := Apply(s, Rotate(p, ttl, o));
            var spent := s.callers[p].token;
            if o != Failed && spent in s.rows && !s.rows[spent].spent && s.now < s.rows[spent].expiresAt &&
               s.rows[spent].user in s.users && !s.users[s.rows[spent].user]
            then
              var row := s.rows[spent];
              && t.log == s.log + [Issue(row.user, row.family, Some(spent))]
              && t.rows.Keys == s.rows.Keys + {|s.log|} && t.rows[spent] == Row(row.user, row.family, true, row.expiresAt)
              && t.rows[|s.log|] == Row(row.user, row.family, false, s.now + ttl)
              && forall other :: other in s.rows && other != spent ==> t.rows[other] == s.rows[other]
            else t.log == s.log && t.rows == s.rows
  {
    forall t | t in s.rows ensures t < |s.log| { assert RowOk(s, t); }
  }

  /** A revocation takes the account's tokens and no others, a purge those that have expired; what stays is unchanged. */
  lemma RemovesExactly(s: State, a: Action)
    requires Enabled(s, a) && (a.RevokeReused? || a.RevokeAll? || a.DeleteUser? || a.Purge?)
    ensures forall t :: t in s.rows ==>
              (t !in Apply(s, a).rows <==>
                match a
                case RevokeReused(p, o) => o != Failed && s.rows[t].user == s.callers[p].row.user
                case RevokeAll(u) => s.rows[t].user == u
                case DeleteUser(u) => s.rows[t].user == u
                case Purge => s.rows[t].expiresAt <= s.now)
    ensures forall t :: t in Apply(s, a).rows ==> t in s.rows && Apply(s, a).rows[t] == s.rows[t]
  {
  }

  /** How long the token lives that a step issues. */
  function Lifetime(a: Action): nat { if a.OpenSession? || a.Rotate? then a.ttl else 0 }

  predicate Issues(run: seq<State>, i: nat)
    requires i + 1 < |run|
  {
    |run[i + 1].log| > |run[i].log|
  }

  /** No step changes the expiry of a stored token. */
  lemma ExpiryStays(s: State, a: Action, t: TokenId)
    requires Enabled(s, a) && t < |s.log| && t in Apply(s, a).rows
    ensures t in s.rows && Apply(s, a).rows[t].expiresAt == s.rows[t].expiresAt
  {
  }

  lemma IssuedFor(s: State, a: Action)
    requires Enabled(s, a) && |Apply(s, a).log| > |s.log|
    ensures |s.log| in Apply(s, a).rows && Apply(s, a).rows[|s.log|].expiresAt == s.now + Lifetime(a) && |Apply(s, a).log| == |s.log| + 1
  {
  }

  lemma {:induction false} ExpiresAsIssued(run: seq<State>, acts: seq<Action>, i: nat, j: nat)
    requires IsRun(run, acts) && i < j < |run| && Issues(run, i) && |run[i].log| in run[j].rows
    ensures run[j].rows[|run[i].log|].expiresAt == run[i].now + Lifetime(acts[i])
    decreases j - i
  {
    assert StepAt(run, acts, i) && StepAt(run, acts, j - 1);
    IssuedFor(run[i], acts[i]);
    if i + 1 < j {
      LogIsStable(run, acts, i + 1, j - 1);
      ExpiryStays(run[j - 1], acts[j - 1], |run[i].log|);
      ExpiresAsIssued(run, acts, i, j - 1);
    }
  }

  /** A token issued for a lifetime is never exchanged once that is over. */
  lemma NeverAfterItsTime(run: seq<State>, acts: seq<Action>, i: nat, j: nat)
    requires IsRun(run, acts) && i < j < |acts| && Issues(run, i) && Issues(run, j)
    requires run[j + 1].log[|run[j].log|].parent == Some(|run[i].log|)
    ensures run[j].now < run[i].now + Lifetime(acts[i])
  {
    assert StepAt(run, acts, j);
    RunKeeps(run, acts, j);
    if acts[j].Rotate? {
      RotatesExactly(run[j], acts[j].p, acts[j].ttl, acts[j].o);
      ExpiresAsIssued(run, acts, i, j);
    }
  }
}
