/**
  The app's session handling (app/src/state/auth.tsx and app/src/api/client.ts)
  together with the server of Sessions.

  JavaScript runs each stretch between two awaits without interruption, so one
  action is one such stretch, or one step of the server on the app's behalf. Any
  number of sign-ins and API calls interleave with the one renewal in flight and
  with the restore at startup. The stored session is written with the refs, and
  the answer of an exchange the server committed reaches the app.
*/
module AppSession {
  import opened Common
  import Sessions

  type UserId = Sessions.UserId
  type TokenId = Sessions.TokenId

  /** An access token: whose it is, and a serial number that tells two of them apart. */
  datatype Access = Access(user: UserId, serial: nat)

  datatype Stored = Stored(user: UserId, refresh: Option<TokenId>)

  datatype Answer = Renewed(user: UserId, token: TokenId) | Refused | Unreachable

  /** One POST /auth/refresh. */
  datatype Exchange =
    | Flying(token: TokenId)
    | AtServer(token: TokenId)
    | Answered(token: TokenId, answer: Answer)

  /** The renewal all callers share: what it presented and the generation it started in. */
  datatype Renewal = Renewal(x: Exchange, gen: nat, second: bool)

  datatype Restore = NotStarted | Exchanging(x: Exchange) | Finished

  datatype SignIn =
    | NoSignIn
    | Asking(user: UserId)
    | Opening(user: UserId)
    | Granted(user: UserId, refresh: Option<TokenId>)

  /** One API call; `sentAs` is history: whose access token each send carried. */
  datatype Call =
    | NoCall
    | InFlight(token: Option<Access>, principal: nat, sentAs: seq<Option<UserId>>)
    | AwaitingRenewal(token: Option<Access>, principal: nat, sentAs: seq<Option<UserId>>)

  /** `gated` says that the app shows nothing but a loading screen until the restore has finished. */
  datatype State = State(
    gated: bool,
    gen: nat,
    principal: nat,
    user: Option<UserId>,
    token: Option<Access>,
    refresh: Option<TokenId>,
    storage: Option<Stored>,
    renewal: Option<Renewal>,
    restore: Restore,
    signIns: seq<SignIn>,
    calls: seq<Call>,
    srv: Sessions.State)

  /** Which exchange: the renewal's or the restore's. */
  datatype Which = OfRenewal | OfRestore

  datatype Action =
    | RestoreRead(usable: bool)
    | RestoreAnswer
    | StartRenewal
    | RenewalAnswer
    | Fail(w: Which)
    | Arrive(w: Which)
    | Decide(w: Which, ttl: nat, ok: bool)
    | AskSignIn(i: nat, u: UserId)
    | ReadAccount(i: nat)
    | OpenSession(i: nat, ttl: nat, ok: bool)
    | GrantWithoutRefresh(i: nat)
    | LoseSignIn(i: nat)
    | FinishSignIn(i: nat)
    | DropSession
    | Restart
    | Send(i: nat)
    | Reply(i: nat, unauthorized: bool)
    | RenewalOver(i: nat, renewed: bool)
    | Profile(i: nat, checked: bool)
    | Elsewhere(a: Sessions.Action)

  // ---------------------------------------------------------------------------
  // The session on hand
  // ---------------------------------------------------------------------------

  /** persist */
  function Persist(s: State, u: UserId, refresh: Option<TokenId>): State {
    s.(gen := s.gen + 1,
       principal := if s.user == Some(u) then s.principal else s.principal + 1,
       user := Some(u), token := Some(Access(u, s.gen + 1)), refresh := refresh,
       storage := Some(Stored(u, refresh)))
  }

  /** clearSession, and the session-rejected handler. */
  function Clear(s: State): State {
    s.(gen := s.gen + 1, principal := s.principal + 1, user := None, token := None, refresh := None, storage := None)
  }

  predicate Ready(s: State) {
    s.restore.Finished? || !s.gated
  }

  predicate HasExchange(s: State, w: Which) {
    match w
    case OfRenewal => s.renewal.Some?
    case OfRestore => s.restore.Exchanging?
  }

  function ExchangeOf(s: State, w: Which): Exchange
    requires HasExchange(s, w)
  {
    match w
    case OfRenewal => s.renewal.value.x
    case OfRestore => s.restore.x
  }

  function SetExchange(s: State, w: Which, x: Exchange): State
    requires HasExchange(s, w)
  {
    match w
    case OfRenewal => s.(renewal := Some(s.renewal.value.(x := x)))
    case OfRestore => s.(restore := Exchanging(x))
  }

  /** The server's caller slots: the renewal's, the restore's, then one per sign-in. */
  function SlotOf(w: Which): nat {
    if w.OfRenewal? then 0 else 1
  }

  /** The server's step for an exchange whose token it has looked up. */
  function ServerStep(s: State, w: Which, ttl: nat, ok: bool): Sessions.Action
    requires HasExchange(s, w) && SlotOf(w) < |s.srv.callers| && s.srv.callers[SlotOf(w)].Looked?
  {
    var o := if ok then Done else Failed;
    if s.srv.callers[SlotOf(w)].row.spent then Sessions.RevokeReused(SlotOf(w), o) else Sessions.Rotate(SlotOf(w), ttl, o)
  }

  function ServerAnswer(s: State, w: Which, ok: bool): Answer
    requires HasExchange(s, w) && SlotOf(w) < |s.srv.callers| && s.srv.callers[SlotOf(w)].Looked?
  {
    var looked := s.srv.callers[SlotOf(w)];
    if !ok then Unreachable
    else if !looked.row.spent && Sessions.CanRotate(s.srv, looked.token) then Renewed(looked.row.user, |s.srv.log|)
    else Refused
  }

  /**
    The answer of a call is the profile of the account that made it, which
    persistUser stores with whatever tokens are on hand. updateDatingProfile checks
    the principal first, refresh does not.
  */
  function StoreProfile(s: State, call: Call, checked: bool): State
    requires call.InFlight? && call.token.Some?
  {
    if Writes(s, call, checked) then s.(storage := Some(Stored(call.token.value.user, s.refresh))) else s
  }

  predicate Writes(s: State, call: Call, checked: bool)
    requires call.InFlight?
  {
    s.token.Some? && (checked ==> call.principal == s.principal)
  }

  // ---------------------------------------------------------------------------
  // Actions
  // ---------------------------------------------------------------------------

  predicate Enabled(s: State, a: Action) {
    match a
    case RestoreRead(_) => s.restore.NotStarted?
    case RestoreAnswer => s.restore.Exchanging? && s.restore.x.Answered?
    case StartRenewal => Ready(s) && s.renewal.None? && s.refresh.Some?
    case RenewalAnswer => s.renewal.Some? && s.renewal.value.x.Answered?
    case Fail(w) => HasExchange(s, w) && ExchangeOf(s, w).Flying?
    case Arrive(w) =>
      && HasExchange(s, w) && ExchangeOf(s, w).Flying?
      && Sessions.Enabled(s.srv, Sessions.Present(SlotOf(w), ExchangeOf(s, w).token))
    case Decide(w, ttl, ok) =>
      && HasExchange(s, w) && ExchangeOf(s, w).AtServer?
      && SlotOf(w) < |s.srv.callers| && s.srv.callers[SlotOf(w)].Looked?
    case AskSignIn(i, _) => Ready(s) && i < |s.signIns| && s.signIns[i].NoSignIn?
    case ReadAccount(i) =>
      && i < |s.signIns| && s.signIns[i].Asking?
      && Sessions.Enabled(s.srv, Sessions.ReadAccount(2 + i, s.signIns[i].user))
    case OpenSession(i, ttl, ok) =>
      && i < |s.signIns| && s.signIns[i].Opening?
      && Sessions.Enabled(s.srv, Sessions.OpenSession(2 + i, ttl, if ok then Done else Failed))
      && s.srv.callers[2 + i].user == s.signIns[i].user
    case GrantWithoutRefresh(i) => i < |s.signIns| && s.signIns[i].Asking?
    case LoseSignIn(i) => i < |s.signIns| && !s.signIns[i].Opening?
    case FinishSignIn(i) => i < |s.signIns| && s.signIns[i].Granted?
    case DropSession => Ready(s)
    case Restart => s.renewal.None? && !s.restore.Exchanging? && forall i :: 0 <= i < |s.signIns| ==> s.signIns[i].NoSignIn?
    case Send(i) => Ready(s) && i < |s.calls| && s.calls[i].NoCall?
    case Reply(i, _) => i < |s.calls| && s.calls[i].InFlight?
    case RenewalOver(i, _) => i < |s.calls| && s.calls[i].AwaitingRenewal?
    case Profile(i, _) => i < |s.calls| && s.calls[i].InFlight? && s.calls[i].token.Some?
    case Elsewhere(b) =>
      && Sessions.Enabled(s.srv, b)
      && (b.CreateUser? || b.MarkDeleted? || b.RevokeAll? || b.DeleteUser? || b.Purge? || b.Tick?)
  }

  function UserOf(token: Option<Access>): Option<UserId> {
    if token.Some? then Some(token.value.user) else None
  }

  function Resend(s: State, call: Call): Call
    requires !call.NoCall?
  {
    InFlight(s.token, s.principal, call.sentAs + [UserOf(s.token)])
  }

  /** What the app does about a reply. Only a first send is retried, and only for the principal it was made for. */
  function OnReply(s: State, call: Call, unauthorized: bool): Call
    requires call.InFlight?
  {
    if unauthorized && call.token.Some? && |call.sentAs| == 1 && call.principal == s.principal then
      if s.token.Some? && s.token != call.token then Resend(s, call)
      else AwaitingRenewal(call.token, call.principal, call.sentAs)
    else NoCall
  }

  function Apply(s: State, a: Action): State
    requires Enabled(s, a)
  {
    match a
    case RestoreRead(usable) =>
      if s.storage.None? then s.(restore := Finished)
      else if usable then Persist(s, s.storage.value.user, s.storage.value.refresh).(restore := Finished)
      else if s.storage.value.refresh.None? then s.(storage := None, restore := Finished)
      else s.(restore := Exchanging(Flying(s.storage.value.refresh.value)))
    case RestoreAnswer =>
      (match s.restore.x.answer
       case Renewed(u, t) => Persist(s, u, Some(t)).(restore := Finished)
       case Refused => s.(storage := None, restore := Finished)
       case Unreachable => s.(restore := Finished))
    case StartRenewal => s.(renewal := Some(Renewal(Flying(s.refresh.value), s.gen, false)))
    case RenewalAnswer =>
      var r := s.renewal.value;
      (match r.x.answer
       case Renewed(u, t) => if r.gen == s.gen then Persist(s, u, Some(t)).(renewal := None) else s.(renewal := None)
       case Refused =>
         if r.gen != s.gen && !r.second && s.refresh.Some?
         then s.(renewal := Some(Renewal(Flying(s.refresh.value), s.gen, true)))
         else s.(renewal := None)
       case Unreachable => s.(renewal := None))
    case Fail(w) => SetExchange(s, w, Answered(ExchangeOf(s, w).token, Unreachable))
    case Arrive(w) =>
      var t := ExchangeOf(s, w).token;
      var u := s.(srv := Sessions.Apply(s.srv, Sessions.Present(SlotOf(w), t)));
      SetExchange(u, w, if t in s.srv.rows then AtServer(t) else Answered(t, Refused))
    case Decide(w, ttl, ok) =>
      var u := s.(srv := Sessions.Apply(s.srv, ServerStep(s, w, ttl, ok)));
      SetExchange(u, w, Answered(ExchangeOf(s, w).token, ServerAnswer(s, w, ok)))
    case AskSignIn(i, u) => s.(signIns := s.signIns[i := Asking(u)])
    case ReadAccount(i) =>
      var u := s.signIns[i].user;
      s.(srv := Sessions.Apply(s.srv, Sessions.ReadAccount(2 + i, u)), signIns := s.signIns[i := Opening(u)])
    case OpenSession(i, ttl, ok) =>
      var u := s.signIns[i].user;
      s.(srv := Sessions.Apply(s.srv, Sessions.OpenSession(2 + i, ttl, if ok then Done else Failed)),
         signIns := s.signIns[i := if ok && u in s.srv.users then Granted(u, Some(|s.srv.log|)) else NoSignIn])
    case GrantWithoutRefresh(i) => s.(signIns := s.signIns[i := Granted(s.signIns[i].user, None)])
    case LoseSignIn(i) => s.(signIns := s.signIns[i := NoSignIn])
    case FinishSignIn(i) =>
      Persist(s, s.signIns[i].user, s.signIns[i].refresh).(signIns := s.signIns[i := NoSignIn])
    case DropSession => Clear(s)
    case Restart =>
      s.(gen := 0, principal := 0, user := None, token := None, refresh := None,
         restore := NotStarted, calls := seq(|s.calls|, _ => NoCall))
    case Send(i) => s.(calls := s.calls[i := InFlight(s.token, s.principal, [UserOf(s.token)])])
    case Reply(i, unauthorized) => s.(calls := s.calls[i := OnReply(s, s.calls[i], unauthorized)])
    case RenewalOver(i, renewed) =>
      var call := s.calls[i];
      s.(calls := s.calls[i := if renewed && call.principal == s.principal then Resend(s, call) else NoCall])
    case Profile(i, checked) => StoreProfile(s, s.calls[i], checked).(calls := s.calls[i := NoCall])
    case Elsewhere(b) => s.(srv := Sessions.Apply(s.srv, b))
  }

  /** The app is installed; the server may already know accounts. */
  ghost predicate Init(s: State) {
    && s.user == None && s.token == None && s.refresh == None && s.storage == None
    && s.renewal == None && s.restore == NotStarted
    && (forall i :: 0 <= i < |s.signIns| ==> s.signIns[i] == NoSignIn)
    && (forall i :: 0 <= i < |s.calls| ==> s.calls[i] == NoCall)
    && Sessions.Init(s.srv) && |s.srv.callers| == 2 + |s.signIns|
  }

  /** A profile that is written belongs to the account whose tokens it is stored with. */
  predicate Paired(s: State, a: Action)
    requires Enabled(s, a)
  {
    a.Profile? && Writes(s, s.calls[a.i], a.checked) ==> s.calls[a.i].token.value.user == s.token.value.user
  }

  /** A step that mixes no accounts; ProfileKeepsExactly says when one does. */
  ghost predicate Next(s: State, t: State) {
    exists a :: Enabled(s, a) && Paired(s, a) && t == Apply(s, a)
  }

  ghost predicate StepAt(run: seq<State>, i: nat)
    requires i + 1 < |run|
  {
    Next(run[i], run[i + 1])
  }

  ghost predicate IsRun(run: seq<State>) {
    run != [] && Init(run[0]) && forall i: nat | i + 1 < |run| :: StepAt(run, i)
  }

  /** The server is about to treat what this app presented as a replay. */
  predicate AtReplay(s: State) {
    exists p | 0 <= p < |s.srv.callers| :: s.srv.callers[p].Looked? && s.srv.callers[p].row.spent
  }

  // ---------------------------------------------------------------------------
  // Invariant of the gated app
  // ---------------------------------------------------------------------------

  /** The places where the app, or an answer on its way to it, holds a refresh token. */
  datatype Place = Ref | Cold | Stale | New(w: Which) | Slot(i: nat)

  function At(s: State, p: Place): Option<TokenId> {
    match p
    case Ref => s.refresh
    case Cold => if s.token.None? && s.storage.Some? then s.storage.value.refresh else None
    case Stale => if s.renewal.Some? && s.renewal.value.gen != s.gen then Some(s.renewal.value.x.token) else None
    case New(w) =>
      if HasExchange(s, w) && ExchangeOf(s, w).Answered? && ExchangeOf(s, w).answer.Renewed?
      then Some(ExchangeOf(s, w).answer.token) else None
    case Slot(i) => if i < |s.signIns| && s.signIns[i].Granted? then s.signIns[i].refresh else None
  }

  ghost predicate Distinct(s: State) {
    forall p, q :: At(s, p).Some? && At(s, p) == At(s, q) ==> p == q
  }

  ghost predicate Unspent(log: seq<Sessions.Issue>, t: TokenId) {
    t < |log| && !Sessions.HasSuccessor(log, t)
  }

  predicate HasNew(s: State, w: Which) {
    At(s, New(w)).Some?
  }

  /** Every token held is unspent, but for the one whose successor is on its way. */
  ghost predicate TokenOk(s: State, p: Place)
    requires At(s, p).Some?
  {
    var t := At(s, p).value;
    && t < |s.srv.log|
    && (p.New? || p.Slot? ==> Unspent(s.srv.log, t))
    && (p.Ref? ==> Unspent(s.srv.log, t) || (s.renewal.Some? && s.renewal.value.gen == s.gen && HasNew(s, OfRenewal)))
    && (p.Cold? ==> Unspent(s.srv.log, t) || HasNew(s, OfRestore))
  }

  ghost predicate ExchangeOk(s: State, w: Which)
    requires HasExchange(s, w)
  {
    var x := ExchangeOf(s, w);
    && x.token < |s.srv.log|
    && (!x.Answered? ==> Unspent(s.srv.log, x.token))
    && (x.Answered? && x.answer.Renewed? ==>
          x.answer.token < |s.srv.log| && s.srv.log[x.answer.token].user == x.answer.user == s.srv.log[x.token].user)
  }

  /** Which of the server's callers work for this app, and on what. */
  ghost predicate Wired(s: State) {
    && |s.srv.callers| == 2 + |s.signIns|
    && (forall w: Which ::
          if HasExchange(s, w) && ExchangeOf(s, w).AtServer?
          then var pc := s.srv.callers[SlotOf(w)]; pc.Looked? && pc.token == ExchangeOf(s, w).token && !pc.row.spent
          else s.srv.callers[SlotOf(w)].Idle?)
    && (forall i :: 0 <= i < |s.signIns| ==>
          s.srv.callers[2 + i] == if s.signIns[i].Opening? then Sessions.SigningIn(s.signIns[i].user) else Sessions.Idle)
  }

  ghost predicate SessionOk(s: State) {
    && (s.token.None? ==> s.refresh.None? && s.user.None?)
    && (s.token.Some? ==> s.user == Some(s.token.value.user) && s.storage == Some(Stored(s.token.value.user, s.refresh)))
    && (s.storage.Some? && s.storage.value.refresh.Some? ==>
          var t := s.storage.value.refresh.value; t < |s.srv.log| && s.srv.log[t].user == s.storage.value.user)
    && (forall i :: 0 <= i < |s.signIns| && s.signIns[i].Granted? && s.signIns[i].refresh.Some? ==>
          var t := s.signIns[i].refresh.value; t < |s.srv.log| && s.srv.log[t].user == s.signIns[i].user)
    && (s.renewal.Some? ==> s.renewal.value.gen <= s.gen)
    && (s.renewal.Some? && s.renewal.value.gen == s.gen ==> s.refresh == Some(s.renewal.value.x.token))
    && (s.restore.Exchanging? ==> s.token.None? && s.storage.Some? && s.storage.value.refresh == Some(s.restore.x.token))
    && (!s.restore.Finished? ==>
          s.renewal.None? && s.token.None? && (forall i :: 0 <= i < |s.signIns| ==> s.signIns[i].NoSignIn?)
          && forall i :: 0 <= i < |s.calls| ==> s.calls[i].NoCall?)
  }

  /**
    A call is sent once or twice, always for the same account, and while its
    principal is the current one its account is the one signed in.
  */
  ghost predicate CallOk(s: State, call: Call) {
    call.NoCall? ||
    (&& 1 <= |call.sentAs| <= 2 && call.principal <= s.principal
     && (call.AwaitingRenewal? ==> |call.sentAs| == 1 && call.token.Some?)
     && (|call.sentAs| == 1 ==> call.sentAs[0] == UserOf(call.token))
     && (|call.sentAs| == 2 ==> call.sentAs[0].Some? && call.sentAs[1] == call.sentAs[0])
     && (call.token.Some? && call.principal == s.principal ==> s.user == Some(call.token.value.user)))
  }

  ghost predicate Inv(s: State) {
    && s.gated && Sessions.Inv(s.srv) && Wired(s) && SessionOk(s) && Distinct(s)
    && (forall p :: At(s, p).Some? ==> TokenOk(s, p))
    && (forall w: Which :: HasExchange(s, w) ==> ExchangeOk(s, w))
    && (forall i :: 0 <= i < |s.calls| ==> CallOk(s, s.calls[i]))
  }

  lemma InitEstablishes(s: State)
    requires Init(s) && s.gated
    ensures Inv(s)
  {
  }

  // Steps of the app.

  /** A session may be installed when its refresh token is unspent and nothing else holds it. */
  lemma PersistKeeps(s: State, u: UserId, refresh: Option<TokenId>)
    requires Inv(s) && s.restore.Finished?
    requires refresh.Some? ==> Unspent(s.srv.log, refresh.value) && s.srv.log[refresh.value].user == u
    requires refresh.Some? ==> forall p :: At(s, p) == refresh ==> p == Cold
    ensures Inv(Persist(s, u, refresh))
  {
    var t := Persist(s, u, refresh);
    assert forall p: Place :: !p.Ref? && !p.Cold? && !p.Stale? ==> At(t, p) == At(s, p);
    forall p, q | At(t, p).Some? && At(t, p) == At(t, q) ensures p == q {
      var p' := Before(s, p);
      var q' := Before(s, q);
      assert p.Ref? || At(t, p) == At(s, p');
      assert q.Ref? || At(t, q) == At(s, q');
    }
    forall p | At(t, p).Some? ensures TokenOk(t, p) {
      assert p.Ref? || TokenOk(s, Before(s, p));
    }
    forall w: Which | HasExchange(t, w) ensures ExchangeOk(t, w) {
      assert ExchangeOk(s, w);
    }
    forall i | 0 <= i < |t.calls| ensures CallOk(t, t.calls[i]) {
      assert CallOk(s, s.calls[i]);
    }
  }

  /** Where a token that is at p after the session changed hands was before. */
  function Before(s: State, p: Place): Place {
    if p.Stale? && s.renewal.Some? && s.renewal.value.gen == s.gen then Ref else p
  }

  lemma ClearKeeps(s: State)
    requires Inv(s) && s.restore.Finished?
    ensures Inv(Clear(s))
  {
    var t := Clear(s);
    assert forall p: Place :: !p.Ref? && !p.Cold? && !p.Stale? ==> At(t, p) == At(s, p);
    forall p, q | At(t, p).Some? && At(t, p) == At(t, q) ensures p == q {
      assert At(t, p) == At(s, Before(s, p)) && At(t, q) == At(s, Before(s, q));
    }
    forall p | At(t, p).Some? ensures TokenOk(t, p) {
      assert TokenOk(s, Before(s, p));
    }
    forall w: Which | HasExchange(t, w) ensures ExchangeOk(t, w) {
      assert ExchangeOk(s, w);
    }
    forall i | 0 <= i < |t.calls| ensures CallOk(t, t.calls[i]) {
      assert CallOk(s, s.calls[i]);
    }
  }

  /** The calls do not matter to the tokens, nor the tokens to the calls. */
  lemma CallsKeep(s: State, i: nat, call: Call)
    requires Inv(s) && i < |s.calls| && CallOk(s, call) && (call.NoCall? || s.restore.Finished?)
    ensures Inv(s.(calls := s.calls[i := call]))
  {
    var t := s.(calls := s.calls[i := call]);
    SameTokens(s, t);
    forall j | 0 <= j < |t.calls| ensures CallOk(t, t.calls[j]) {
      assert CallOk(s, s.calls[j]);
    }
  }

  /** Places, exchanges and what is known of them depend on these parts of the state alone. */
  lemma SameTokens(s: State, t: State)
    requires s.refresh == t.refresh && s.token == t.token && s.storage == t.storage && s.renewal == t.renewal
    requires s.gen == t.gen && s.restore == t.restore && s.signIns == t.signIns && s.srv.log == t.srv.log
    ensures forall p :: At(t, p) == At(s, p)
    ensures Distinct(s) ==> Distinct(t)
    ensures (forall p :: At(s, p).Some? ==> TokenOk(s, p)) ==> forall p :: At(t, p).Some? ==> TokenOk(t, p)
    ensures (forall w: Which :: HasExchange(s, w) ==> ExchangeOk(s, w)) ==> forall w: Which :: HasExchange(t, w) ==> ExchangeOk(t, w)
  {
    forall p ensures At(t, p) == At(s, p) {}
    assert forall w: Which :: HasExchange(t, w) == HasExchange(s, w);
    assert forall w: Which :: HasExchange(t, w) ==> ExchangeOf(t, w) == ExchangeOf(s, w);
    forall p | At(t, p).Some? && TokenOk(s, p) ensures TokenOk(t, p) {
      assert HasNew(t, OfRenewal) == HasNew(s, OfRenewal) && HasNew(t, OfRestore) == HasNew(s, OfRestore);
    }
    forall w: Which | HasExchange(t, w) && ExchangeOk(s, w) ensures ExchangeOk(t, w) {}
  }

  lemma CallStepKeeps(s: State, a: Action)
    requires Inv(s) && Enabled(s, a) && (a.Send? || a.Reply? || a.RenewalOver?)
    ensures Inv(Apply(s, a))
  {
    assert CallOk(s, s.calls[a.i]);
    match a
    case Send(i) => CallsKeep(s, i, InFlight(s.token, s.principal, [UserOf(s.token)]));
    case Reply(i, unauthorized) => CallsKeep(s, i, OnReply(s, s.calls[i], unauthorized));
    case RenewalOver(i, renewed) =>
      var call := s.calls[i];
      CallsKeep(s, i, if renewed && call.principal == s.principal then Resend(s, call) else NoCall);
  }

  /** A call that is still the current principal's carries a token of the account on hand. */
  lemma PrincipalPairs(s: State, i: nat)
    requires Inv(s) && Enabled(s, Profile(i, false)) && s.token.Some? && s.calls[i].principal == s.principal
    ensures s.calls[i].token.value.user == s.token.value.user
  {
    assert CallOk(s, s.calls[i]);
  }

  /**
    A profile answer keeps everything as it should be exactly if it is not written
    or the tokens on hand are those of the account it was asked for; an unchanged
    principal, which updateDatingProfile checks, is enough for that.
  */
  lemma ProfileKeepsExactly(s: State, i: nat, checked: bool)
    requires Inv(s) && Enabled(s, Profile(i, checked))
    ensures Inv(Apply(s, Profile(i, checked))) <==> Paired(s, Profile(i, checked))
    ensures checked || s.calls[i].principal == s.principal ==> Paired(s, Profile(i, checked))
  {
    if Writes(s, s.calls[i], checked) && s.calls[i].principal == s.principal { PrincipalPairs(s, i); }
    if Paired(s, Profile(i, checked)) {
      assert StoreProfile(s, s.calls[i], checked) == s;
      CallsKeep(s, i, NoCall);
    }
  }

  /** A sign-in slot other than one the server works for changes; it holds no token afterwards. */
  lemma SignInKeeps(s: State, i: nat, next: SignIn)
    requires Inv(s) && i < |s.signIns| && !s.signIns[i].Opening? && !next.Opening?
    requires next.Granted? ==> next.refresh.None?
    requires s.restore.Finished? || next.NoSignIn?
    ensures Inv(s.(signIns := s.signIns[i := next]))
  {
    var t := s.(signIns := s.signIns[i := next]);
    forall p ensures At(t, p) == if p == Slot(i) then None else At(s, p) {}
    assert forall w: Which :: HasExchange(t, w) == HasExchange(s, w);
    forall p | At(t, p).Some? ensures TokenOk(t, p) {
      assert TokenOk(s, p) && HasNew(t, OfRenewal) == HasNew(s, OfRenewal) && HasNew(t, OfRestore) == HasNew(s, OfRestore);
    }
    forall w: Which | HasExchange(t, w) ensures ExchangeOk(t, w) { assert ExchangeOk(s, w); }
    forall j | 0 <= j < |t.calls| ensures CallOk(t, t.calls[j]) { assert CallOk(s, s.calls[j]); }
  }

  lemma FinishSignInKeeps(s: State, i: nat)
    requires Inv(s) && Enabled(s, FinishSignIn(i))
    ensures Inv(Apply(s, FinishSignIn(i)))
  {
    var t := s.(signIns := s.signIns[i := NoSignIn]);
    var refresh := s.signIns[i].refresh;
    SignInKeeps(s, i, NoSignIn);
    if refresh.Some? {
      assert At(s, Slot(i)) == refresh && TokenOk(s, Slot(i));
      assert forall p :: At(t, p).Some? ==> p != Slot(i) && At(s, p) == At(t, p);
    }
    PersistKeeps(t, s.signIns[i].user, refresh);
    assert Apply(s, FinishSignIn(i)) == Persist(t, s.signIns[i].user, refresh);
  }

  /** The renewal slot changes to a fresh flight with the token on hand, or to nothing. */
  lemma RenewalKeeps(s: State, next: Option<Renewal>)
    requires Inv(s) && s.restore.Finished?
    requires s.renewal.Some? ==> s.renewal.value.x.Answered? && !(s.renewal.value.gen == s.gen && HasNew(s, OfRenewal))
    requires next.Some? ==> s.refresh.Some? && next.value.x == Flying(s.refresh.value) && next.value.gen == s.gen
    ensures Inv(s.(renewal := next))
  {
    var t := s.(renewal := next);
    assert HasExchange(s, OfRenewal) == s.renewal.Some?;
    forall p ensures At(t, p) == if p == Stale || p == New(OfRenewal) then None else At(s, p) {}
    forall p | At(t, p).Some? ensures TokenOk(t, p) {
      assert TokenOk(s, p) && HasNew(t, OfRestore) == HasNew(s, OfRestore);
    }
    if next.Some? { assert At(s, Ref).Some? && TokenOk(s, Ref); }
    forall w: Which | HasExchange(t, w) ensures ExchangeOk(t, w) {
      if w.OfRestore? { assert ExchangeOk(s, w); }
    }
    assert Wired(t) by {
      forall w: Which
        ensures if HasExchange(t, w) && ExchangeOf(t, w).AtServer?
                then var pc := t.srv.callers[SlotOf(w)]; pc.Looked? && pc.token == ExchangeOf(t, w).token && !pc.row.spent
                else t.srv.callers[SlotOf(w)].Idle?
      {
        assert HasExchange(s, w) ==> ExchangeOk(s, w);
      }
    }
    forall j | 0 <= j < |t.calls| ensures CallOk(t, t.calls[j]) { assert CallOk(s, s.calls[j]); }
  }

  /** The renewal is answered with a new session that is still wanted: it replaces the one it renews. */
  lemma RenewedKeeps(s: State)
    requires Inv(s) && s.renewal.Some? && s.renewal.value.x.Answered? && s.renewal.value.x.answer.Renewed?
    requires s.renewal.value.gen == s.gen
    ensures Inv(Apply(s, RenewalAnswer))
    ensures Apply(s, RenewalAnswer).user == s.user && Apply(s, RenewalAnswer).principal == s.principal
  {
    var answer := s.renewal.value.x.answer;
    var t := Apply(s, RenewalAnswer);
    assert ExchangeOk(s, OfRenewal);
    assert At(s, New(OfRenewal)) == Some(answer.token) && TokenOk(s, New(OfRenewal));
    assert s.refresh.Some? && s.token.Some?;
    forall p ensures At(t, p) ==
                     match p
                     case Ref => Some(answer.token)
                     case Cold => None
                     case Stale => None
                     case New(w) => if w.OfRenewal? then None else At(s, p)
                     case Slot(_) => At(s, p)
    {}
    forall p, q | At(t, p).Some? && At(t, p) == At(t, q) ensures p == q {
      assert At(t, p) == At(s, if p.Ref? then New(OfRenewal) else p);
      assert At(t, q) == At(s, if q.Ref? then New(OfRenewal) else q);
    }
    forall p | At(t, p).Some? ensures TokenOk(t, p) {
      if !p.Ref? { assert TokenOk(s, p); }
    }
    assert forall w: Which :: !HasExchange(t, w);
    forall j | 0 <= j < |t.calls| ensures CallOk(t, t.calls[j]) { assert CallOk(s, s.calls[j]); }
  }

  lemma RenewalStepKeeps(s: State, a: Action)
    requires Inv(s) && Enabled(s, a) && (a.StartRenewal? || a.RenewalAnswer?)
    ensures Inv(Apply(s, a))
  {
    match a
    case StartRenewal => RenewalKeeps(s, Some(Renewal(Flying(s.refresh.value), s.gen, false)));
    case RenewalAnswer =>
      var r := s.renewal.value;
      if r.x.answer.Renewed? && r.gen == s.gen {
        RenewedKeeps(s);
      } else if r.x.answer.Refused? && r.gen != s.gen && !r.second && s.refresh.Some? {
        RenewalKeeps(s, Some(Renewal(Flying(s.refresh.value), s.gen, true)));
      } else {
        assert HasExchange(s, OfRenewal);
        RenewalKeeps(s, None);
      }
  }

  /** Before and during the restore, the stored session is the only one there is. */
  lemma OnlyCold(s: State)
    requires Inv(s) && !s.restore.Finished?
    ensures forall p :: At(s, p).Some? ==> p == Cold || p == New(OfRestore)
    ensures s.renewal.None? && s.refresh.None? && forall i :: 0 <= i < |s.calls| ==> s.calls[i].NoCall?
  {
    forall p | At(s, p).Some? ensures p == Cold || p == New(OfRestore) {
      match p
      case New(w) => assert w == OfRestore;
      case _ =>
    }
  }

  /** The restore ends without a session on hand, keeping or forgetting the stored one. */
  lemma RestoreEndsKeeps(s: State, forget: bool)
    requires Inv(s) && !s.restore.Finished?
    requires s.restore.Exchanging? ==> s.restore.x.Answered? && !HasNew(s, OfRestore)
    ensures Inv(s.(restore := Finished, storage := if forget then None else s.storage))
  {
    var t := s.(restore := Finished, storage := if forget then None else s.storage);
    OnlyCold(s);
    assert forall w: Which :: !HasExchange(t, w);
    assert forall p :: At(t, p).Some? ==> p == Cold && At(s, p) == At(t, p);
    forall p | At(t, p).Some? ensures TokenOk(t, p) {
      assert TokenOk(s, p);
    }
    assert !HasExchange(s, OfRenewal);
  }

  lemma RestoreReadKeeps(s: State, usable: bool)
    requires Inv(s) && Enabled(s, RestoreRead(usable))
    ensures Inv(Apply(s, RestoreRead(usable)))
  {
    OnlyCold(s);
    var t := s.(restore := Finished);
    assert !HasExchange(s, OfRestore) && !HasNew(s, OfRestore);
    RestoreEndsKeeps(s, false);
    if s.storage.None? {
      assert Apply(s, RestoreRead(usable)) == t;
    } else if usable {
      var refresh := s.storage.value.refresh;
      if refresh.Some? {
        assert At(t, Cold) == refresh && TokenOk(t, Cold);
        assert !HasExchange(t, OfRestore);
      }
      PersistKeeps(t, s.storage.value.user, refresh);
      assert Apply(s, RestoreRead(usable)) == Persist(t, s.storage.value.user, refresh);
    } else if s.storage.value.refresh.None? {
      RestoreEndsKeeps(s, true);
    } else {
      StartRestoreKeeps(s);
    }
  }

  lemma StartRestoreKeeps(s: State)
    requires Inv(s) && s.restore.NotStarted? && s.storage.Some? && s.storage.value.refresh.Some?
    ensures Inv(s.(restore := Exchanging(Flying(s.storage.value.refresh.value))))
  {
    OnlyCold(s);
    var t := s.(restore := Exchanging(Flying(s.storage.value.refresh.value)));
    assert At(s, Cold).Some? && TokenOk(s, Cold) && !HasNew(s, OfRestore);
    assert forall w: Which :: HasExchange(t, w) ==> ExchangeOf(t, w).Flying?;
    assert forall p :: At(t, p).Some? ==> p == Cold && At(s, p) == At(t, p);
    forall p | At(t, p).Some? ensures TokenOk(t, p) {}
    assert !HasExchange(t, OfRenewal) && !HasExchange(s, OfRenewal) && !HasExchange(s, OfRestore);
  }

  lemma RestoreAnswerKeeps(s: State)
    requires Inv(s) && Enabled(s, RestoreAnswer)
    ensures Inv(Apply(s, RestoreAnswer))
  {
    match s.restore.x.answer
    case Refused => RestoreEndsKeeps(s, true);
    case Unreachable => RestoreEndsKeeps(s, false);
    case Renewed(u, token) =>
      OnlyCold(s);
      assert ExchangeOk(s, OfRestore);
      assert At(s, New(OfRestore)) == Some(token) && TokenOk(s, New(OfRestore));
      var t := Apply(s, RestoreAnswer);
      assert forall w: Which :: !HasExchange(t, w);
      assert forall p :: At(t, p).Some? ==> p == Ref;
      assert TokenOk(t, Ref);
      assert !HasExchange(s, OfRenewal);
  }

  lemma RestartKeeps(s: State)
    requires Inv(s) && Enabled(s, Restart)
    ensures Inv(Apply(s, Restart))
  {
    var t := Apply(s, Restart);
    assert forall w: Which :: !HasExchange(t, w) && !HasExchange(s, w);
    assert forall p :: At(t, p).Some? ==> p == Cold && At(t, p) == At(s, if s.token.Some? then Ref else Cold);
    forall p | At(t, p).Some? ensures TokenOk(t, p) {
      assert TokenOk(s, if s.token.Some? then Ref else Cold);
      assert !HasNew(s, OfRestore);
    }
  }

  // Steps of the server.

  lemma ElsewhereKeeps(s: State, b: Sessions.Action)
    requires Inv(s) && Enabled(s, Elsewhere(b))
    ensures Inv(s.(srv := Sessions.Apply(s.srv, b)))
  {
    var t := s.(srv := Sessions.Apply(s.srv, b));
    Sessions.StepKeeps(s.srv, b);
    SameTokens(s, t);
    assert t.srv.callers == s.srv.callers;
    assert forall w: Which :: HasExchange(t, w) == HasExchange(s, w);
    forall j | 0 <= j < |t.calls| ensures CallOk(t, t.calls[j]) { assert CallOk(s, s.calls[j]); }
  }

  lemma StaysWired(s: State, w: Which, x: Exchange, srv: Sessions.State)
    requires Wired(s) && HasExchange(s, w) && |srv.callers| == |s.srv.callers|
    requires forall p :: 0 <= p < |srv.callers| && p != SlotOf(w) ==> srv.callers[p] == s.srv.callers[p]
    requires var pc := srv.callers[SlotOf(w)];
             if x.AtServer? then pc.Looked? && pc.token == x.token && !pc.row.spent else pc.Idle?
    ensures Wired(SetExchange(s.(srv := srv), w, x))
  {
    var t := SetExchange(s.(srv := srv), w, x);
    forall v: Which
      ensures if HasExchange(t, v) && ExchangeOf(t, v).AtServer?
              then var pc := t.srv.callers[SlotOf(v)]; pc.Looked? && pc.token == ExchangeOf(t, v).token && !pc.row.spent
              else t.srv.callers[SlotOf(v)].Idle?
    {
      if v != w { assert SlotOf(v) != SlotOf(w) && HasExchange(t, v) == HasExchange(s, v); }
    }
  }

  /** An exchange gets its answer or its lookup while the log stays as it is. */
  lemma ExchangeStepKeeps(s: State, w: Which, x: Exchange, srv: Sessions.State)
    requires Inv(s) && HasExchange(s, w) && !ExchangeOf(s, w).Answered? && x.token == ExchangeOf(s, w).token
    requires !x.Flying? && (x.Answered? ==> !x.answer.Renewed?)
    requires Sessions.Inv(srv) && srv.log == s.srv.log && |srv.callers| == |s.srv.callers|
    requires forall p :: 0 <= p < |srv.callers| && p != SlotOf(w) ==> srv.callers[p] == s.srv.callers[p]
    requires var pc := srv.callers[SlotOf(w)];
             if x.AtServer? then pc.Looked? && pc.token == x.token && !pc.row.spent else pc.Idle?
    ensures Inv(SetExchange(s.(srv := srv), w, x))
  {
    var t := SetExchange(s.(srv := srv), w, x);
    assert ExchangeOk(s, w);
    assert forall v: Which :: HasExchange(t, v) == HasExchange(s, v);
    assert forall v: Which :: HasExchange(s, v) && v != w ==> ExchangeOf(t, v) == ExchangeOf(s, v);
    forall p ensures At(t, p) == At(s, p) {
      match p
      case New(v) =>
      case _ =>
    }
    forall p | At(t, p).Some? ensures TokenOk(t, p) {
      assert TokenOk(s, p) && HasNew(t, OfRenewal) == HasNew(s, OfRenewal) && HasNew(t, OfRestore) == HasNew(s, OfRestore);
    }
    forall v: Which | HasExchange(t, v) ensures ExchangeOk(t, v) { assert ExchangeOk(s, v); }
    StaysWired(s, w, x, srv);
    forall j | 0 <= j < |t.calls| ensures CallOk(t, t.calls[j]) { assert CallOk(s, s.calls[j]); }
  }

  lemma ArriveKeeps(s: State, w: Which)
    requires Inv(s) && Enabled(s, Arrive(w))
    ensures Inv(Apply(s, Arrive(w)))
  {
    var token := ExchangeOf(s, w).token;
    var present := Sessions.Present(SlotOf(w), token);
    Sessions.StepKeeps(s.srv, present);
    assert ExchangeOk(s, w);
    assert token in s.srv.rows ==> Sessions.RowOk(s.srv, token);
    ExchangeStepKeeps(s, w, if token in s.srv.rows then AtServer(token) else Answered(token, Refused), Sessions.Apply(s.srv, present));
  }

  lemma FailKeeps(s: State, w: Which)
    requires Inv(s) && Enabled(s, Fail(w))
    ensures Inv(Apply(s, Fail(w)))
  {
    ExchangeStepKeeps(s, w, Answered(ExchangeOf(s, w).token, Unreachable), s.srv);
    assert s.(srv := s.srv) == s;
  }

  /** Issuing one more token touches the standing of its parent alone. */
  lemma IssueKeepsUnspent(log: seq<Sessions.Issue>, issue: Sessions.Issue, t: TokenId)
    requires Unspent(log, t) && issue.parent != Some(t)
    ensures Unspent(log + [issue], t)
  {
    Sessions.LogGrows(log, issue, t);
  }

  lemma NewestIsUnspent(srv: Sessions.State)
    requires Sessions.Inv(srv) && srv.log != []
    ensures Unspent(srv.log, |srv.log| - 1)
  {
    Sessions.NewestHasNoSuccessor(srv.log, |srv.log| - 1);
  }

  lemma DecideKeeps(s: State, w: Which, ttl: nat, ok: bool)
    requires Inv(s) && Enabled(s, Decide(w, ttl, ok))
    ensures Inv(Apply(s, Decide(w, ttl, ok)))
  {
    var looked := s.srv.callers[SlotOf(w)];
    var token := ExchangeOf(s, w).token;
    var step := ServerStep(s, w, ttl, ok);
    var answer := ServerAnswer(s, w, ok);
    var srv := Sessions.Apply(s.srv, step);
    assert ExchangeOk(s, w) && !looked.row.spent && looked.token == token;
    Sessions.StepKeeps(s.srv, step);
    if answer.Renewed? {
      assert Sessions.RowOk(s.srv, token) && Sessions.CallerOk(s.srv, looked);
      var row := s.srv.rows[token];
      ExchangeSucceedsKeeps(s, w, srv, Sessions.Issue(row.user, row.family, Some(token)));
    } else {
      ExchangeStepKeeps(s, w, Answered(token, answer), srv);
    }
  }

  /** The server has spent the presented token and issued its successor. */
  lemma ExchangeSucceedsKeeps(s: State, w: Which, srv: Sessions.State, issue: Sessions.Issue)
    requires Inv(s) && HasExchange(s, w) && !ExchangeOf(s, w).Answered?
    requires Sessions.Inv(srv) && srv.log == s.srv.log + [issue] && issue.parent == Some(ExchangeOf(s, w).token)
    requires issue.user == s.srv.log[ExchangeOf(s, w).token].user
    requires srv.callers == s.srv.callers[SlotOf(w) := Sessions.Idle]
    ensures Inv(SetExchange(s.(srv := srv), w, Answered(ExchangeOf(s, w).token, Renewed(issue.user, |s.srv.log|))))
  {
    var x := Answered(ExchangeOf(s, w).token, Renewed(issue.user, |s.srv.log|));
    var t := SetExchange(s.(srv := srv), w, x);
    assert ExchangeOk(s, w);
    NewestIsUnspent(srv);
    assert forall v: Which :: HasExchange(t, v) == HasExchange(s, v);
    forall p ensures At(t, p) == if p == New(w) then Some(|s.srv.log|) else At(s, p) {}
    forall p | At(s, p).Some? ensures At(s, p).value < |s.srv.log| { assert TokenOk(s, p); }
    forall p | At(t, p).Some? ensures TokenOk(t, p) {
      if p != New(w) { StaysOk(s, t, w, p, issue); }
    }
    OnlyOneExchange(s);
    assert forall v: Which :: HasExchange(t, v) ==> v == w;
    StaysWired(s, w, x, srv);
    CallsStayOk(s, t);
  }

  lemma CallsStayOk(s: State, t: State)
    requires t.calls == s.calls && t.principal == s.principal && t.user == s.user
    ensures (forall i :: 0 <= i < |s.calls| ==> CallOk(s, s.calls[i])) ==> forall i :: 0 <= i < |t.calls| ==> CallOk(t, t.calls[i])
  {
    assert forall call :: CallOk(s, call) ==> CallOk(t, call);
  }

  lemma OnlyOneExchange(s: State)
    requires Inv(s)
    ensures !(HasExchange(s, OfRenewal) && HasExchange(s, OfRestore))
  {
  }

  /** What a place holds stays in order when exchange w succeeds. */
  lemma StaysOk(s: State, t: State, w: Which, p: Place, issue: Sessions.Issue)
    requires Inv(s) && HasExchange(s, w) && HasExchange(t, w) && !ExchangeOf(s, w).Answered?
    requires issue.parent == Some(ExchangeOf(s, w).token) && t.srv.log == s.srv.log + [issue]
    requires At(t, p) == At(s, p) && At(s, p).Some? && HasNew(t, w) && p != New(w)
    requires s.gen == t.gen && (s.renewal.Some? && t.renewal.Some? ==> s.renewal.value.gen == t.renewal.value.gen)
    requires s.renewal.Some? == t.renewal.Some?
    ensures TokenOk(t, p)
  {
    assert TokenOk(s, p);
    OnlyOneExchange(s);
    var held := At(s, p).value;
    assert !HasNew(s, w);
    if held != ExchangeOf(s, w).token {
      if Unspent(s.srv.log, held) { IssueKeepsUnspent(s.srv.log, issue, held); }
    } else if w == OfRenewal {
      assert p == if s.renewal.value.gen == s.gen then Ref else Stale by {
        assert At(s, if s.renewal.value.gen == s.gen then Ref else Stale) == Some(held);
      }
    } else {
      assert p == Cold by {
        assert At(s, Cold) == Some(held);
      }
    }
  }

  /** The server works on a sign-in without issuing a token. */
  lemma SignInServedKeeps(s: State, i: nat, next: SignIn, srv: Sessions.State)
    requires Inv(s) && i < |s.signIns| && s.restore.Finished? && !s.signIns[i].Granted? && !next.Granted?
    requires Sessions.Inv(srv) && srv.log == s.srv.log && |srv.callers| == |s.srv.callers|
    requires srv.callers == s.srv.callers[2 + i := if next.Opening? then Sessions.SigningIn(next.user) else Sessions.Idle]
    ensures Inv(s.(srv := srv, signIns := s.signIns[i := next]))
  {
    var t := s.(srv := srv, signIns := s.signIns[i := next]);
    forall p ensures At(t, p) == At(s, p) {}
    assert forall w: Which :: HasExchange(t, w) == HasExchange(s, w);
    forall p | At(t, p).Some? ensures TokenOk(t, p) {
      assert TokenOk(s, p) && HasNew(t, OfRenewal) == HasNew(s, OfRenewal) && HasNew(t, OfRestore) == HasNew(s, OfRestore);
    }
    forall w: Which | HasExchange(t, w) ensures ExchangeOk(t, w) { assert ExchangeOk(s, w); }
    forall j | 0 <= j < |t.calls| ensures CallOk(t, t.calls[j]) { assert CallOk(s, s.calls[j]); }
  }

  /** The server grants a sign-in the token it has just issued. */
  lemma GrantedKeeps(s: State, i: nat, srv: Sessions.State, issue: Sessions.Issue)
    requires Inv(s) && i < |s.signIns| && s.signIns[i].Opening? && s.restore.Finished?
    requires Sessions.Inv(srv) && srv.log == s.srv.log + [issue] && issue.parent.None? && issue.user == s.signIns[i].user
    requires srv.callers == s.srv.callers[2 + i := Sessions.Idle]
    ensures Inv(s.(srv := srv, signIns := s.signIns[i := Granted(issue.user, Some(|s.srv.log|))]))
  {
    var new_ := |s.srv.log|;
    var t := s.(srv := srv, signIns := s.signIns[i := Granted(issue.user, Some(new_))]);
    NewestIsUnspent(srv);
    forall p ensures At(t, p) == if p == Slot(i) then Some(new_) else At(s, p) {}
    assert forall w: Which :: HasExchange(t, w) == HasExchange(s, w);
    forall p | At(s, p).Some? ensures At(s, p).value < new_ { assert TokenOk(s, p); }
    forall p | At(t, p).Some? ensures TokenOk(t, p) {
      if At(s, p).Some? {
        assert TokenOk(s, p) && HasNew(t, OfRenewal) == HasNew(s, OfRenewal) && HasNew(t, OfRestore) == HasNew(s, OfRestore);
        if Unspent(s.srv.log, At(s, p).value) { IssueKeepsUnspent(s.srv.log, issue, At(s, p).value); }
      }
    }
    forall w: Which | HasExchange(t, w) ensures ExchangeOk(t, w) {
      assert ExchangeOk(s, w);
      if !ExchangeOf(s, w).Answered? { IssueKeepsUnspent(s.srv.log, issue, ExchangeOf(s, w).token); }
    }
    forall j | 0 <= j < |t.calls| ensures CallOk(t, t.calls[j]) { assert CallOk(s, s.calls[j]); }
  }

  lemma OpenSessionKeeps(s: State, i: nat, ttl: nat, ok: bool)
    requires Inv(s) && Enabled(s, OpenSession(i, ttl, ok))
    ensures Inv(Apply(s, OpenSession(i, ttl, ok)))
  {
    var step := Sessions.OpenSession(2 + i, ttl, if ok then Done else Failed);
    var srv := Sessions.Apply(s.srv, step);
    Sessions.StepKeeps(s.srv, step);
    if ok && s.signIns[i].user in s.srv.users {
      GrantedKeeps(s, i, srv, Sessions.Issue(s.signIns[i].user, s.srv.nextFamily, None));
    } else {
      SignInServedKeeps(s, i, NoSignIn, srv);
    }
  }

  lemma ReadAccountKeeps(s: State, i: nat)
    requires Inv(s) && Enabled(s, ReadAccount(i))
    ensures Inv(Apply(s, ReadAccount(i)))
  {
    var step := Sessions.ReadAccount(2 + i, s.signIns[i].user);
    Sessions.StepKeeps(s.srv, step);
    SignInServedKeeps(s, i, Opening(s.signIns[i].user), Sessions.Apply(s.srv, step));
  }

  lemma SignInStepKeeps(s: State, a: Action)
    requires Inv(s) && Enabled(s, a)
    requires a.AskSignIn? || a.GrantWithoutRefresh? || a.LoseSignIn?
    ensures Inv(Apply(s, a))
  {
    match a
    case AskSignIn(i, u) => SignInKeeps(s, i, Asking(u));
    case GrantWithoutRefresh(i) => SignInKeeps(s, i, Granted(s.signIns[i].user, None));
    case LoseSignIn(i) => SignInKeeps(s, i, NoSignIn);
  }

  lemma AppStepKeeps(s: State, a: Action)
    requires Inv(s) && Enabled(s, a)
    requires a.RestoreRead? || a.RestoreAnswer? || a.StartRenewal? || a.RenewalAnswer? || a.DropSession? || a.Restart?
    ensures Inv(Apply(s, a))
  {
    match a
    case RestoreRead(usable) => RestoreReadKeeps(s, usable);
    case RestoreAnswer => RestoreAnswerKeeps(s);
    case StartRenewal => RenewalStepKeeps(s, a);
    case RenewalAnswer => RenewalStepKeeps(s, a);
    case DropSession => ClearKeeps(s);
    case Restart => RestartKeeps(s);
  }

  lemma ServerStepKeeps(s: State, a: Action)
    requires Inv(s) && Enabled(s, a) && (a.Fail? || a.Arrive? || a.Decide? || a.Elsewhere?)
    ensures Inv(Apply(s, a))
  {
    match a
    case Fail(w) => FailKeeps(s, w);
    case Arrive(w) => ArriveKeeps(s, w);
    case Decide(w, ttl, ok) => DecideKeeps(s, w, ttl, ok);
    case Elsewhere(b) => ElsewhereKeeps(s, b);
  }

  lemma CallOrProfileKeeps(s: State, a: Action)
    requires Inv(s) && Enabled(s, a) && Paired(s, a) && (a.Send? || a.Reply? || a.RenewalOver? || a.Profile?)
    ensures Inv(Apply(s, a))
  {
    if a.Profile? { ProfileKeepsExactly(s, a.i, a.checked); } else { CallStepKeeps(s, a); }
  }

  lemma ServedSignInKeeps(s: State, a: Action)
    requires Inv(s) && Enabled(s, a) && (a.ReadAccount? || a.OpenSession? || a.FinishSignIn?)
    ensures Inv(Apply(s, a))
  {
    match a
    case ReadAccount(i) => ReadAccountKeeps(s, i);
    case OpenSession(i, ttl, ok) => OpenSessionKeeps(s, i, ttl, ok);
    case FinishSignIn(i) => FinishSignInKeeps(s, i);
  }

  /** Every step of the gated app, of the server and of the world around them keeps the invariant. */
  lemma StepKeeps(s: State, t: State)
    requires Inv(s) && Next(s, t)
    ensures Inv(t)
  {
    var a :| Enabled(s, a) && Paired(s, a) && t == Apply(s, a);
    if a.Send? || a.Reply? || a.RenewalOver? || a.Profile? {
      CallOrProfileKeeps(s, a);
    } else if a.RestoreRead? || a.RestoreAnswer? || a.StartRenewal? || a.RenewalAnswer? || a.DropSession? || a.Restart? {
      AppStepKeeps(s, a);
    } else if a.ReadAccount? || a.OpenSession? || a.FinishSignIn? {
      ServedSignInKeeps(s, a);
    } else if a.AskSignIn? || a.GrantWithoutRefresh? || a.LoseSignIn? {
      SignInStepKeeps(s, a);
    } else {
      ServerStepKeeps(s, a);
    }
  }

  lemma {:induction false} RunKeeps(run: seq<State>, i: nat)
    requires IsRun(run) && run[0].gated && i < |run|
    ensures Inv(run[i])
  {
    if i == 0 {
      InitEstablishes(run[0]);
    } else {
      RunKeeps(run, i - 1);
      assert StepAt(run, i - 1);
      StepKeeps(run[i - 1], run[i]);
    }
  }

  // ---------------------------------------------------------------------------
  // Main results
  // ---------------------------------------------------------------------------

  lemma LookupsAreLive(s: State, p: nat)
    requires Inv(s) && p < |s.srv.callers|
    ensures s.srv.callers[p].Looked? ==> !s.srv.callers[p].row.spent
  {
    if p < 2 {
      var w := if p == 0 then OfRenewal else OfRestore;
      assert s.srv.callers[SlotOf(w)].Looked? ==> HasExchange(s, w) && ExchangeOf(s, w).AtServer?;
    } else {
      var i := p - 2;
      assert s.srv.callers[2 + i] == if s.signIns[i].Opening? then Sessions.SigningIn(s.signIns[i].user) else Sessions.Idle;
    }
  }

  /**
    App and server composed: under every interleaving of renewals, sign-ins,
    sign-outs, restarts and the restore at startup, the server never comes to
    treat what the app presented as a replay, every token the app has yet to have
    an answer for is one that was never exchanged, and no token is exchanged twice.
  */
  lemma NeverTakenForAReplay(run: seq<State>, i: nat)
    requires IsRun(run) && run[0].gated && i < |run|
    ensures var s := run[i];
            && !AtReplay(s)
            && (forall w: Which :: HasExchange(s, w) && !ExchangeOf(s, w).Answered? ==> Unspent(s.srv.log, ExchangeOf(s, w).token))
            && (forall b, c ::
                  (0 <= b < |s.srv.log| && 0 <= c < |s.srv.log| && s.srv.log[b].parent.Some? && s.srv.log[b].parent == s.srv.log[c].parent) ==>
                  b == c)
  {
    RunKeeps(run, i);
    var s := run[i];
    forall w: Which | HasExchange(s, w) && !ExchangeOf(s, w).Answered? ensures Unspent(s.srv.log, ExchangeOf(s, w).token) {
      assert ExchangeOk(s, w);
    }
    forall p | 0 <= p < |s.srv.callers| ensures !(s.srv.callers[p].Looked? && s.srv.callers[p].row.spent) {
      LookupsAreLive(s, p);
    }
    forall b, c | 0 <= b < |s.srv.log| && 0 <= c < |s.srv.log| && s.srv.log[b].parent.Some? && s.srv.log[b].parent == s.srv.log[c].parent
      ensures b == c
    {
      assert Sessions.Chained(s.srv.log, b) && Sessions.Chained(s.srv.log, c);
    }
  }

  /**
    A call is never replayed for someone else: every API call is sent at most
    twice, and a second send carries a token of the same account as the first.
  */
  lemma CallsStayWithTheirAccount(run: seq<State>, i: nat, k: nat)
    requires IsRun(run) && run[0].gated && i < |run| && k < |run[i].calls| && !run[i].calls[k].NoCall?
    ensures var sentAs := run[i].calls[k].sentAs;
            1 <= |sentAs| <= 2 && (|sentAs| == 2 ==> sentAs[0].Some? && sentAs[1] == sentAs[0])
  {
    RunKeeps(run, i);
    assert CallOk(run[i], run[i].calls[k]);
  }

  /**
    A rotation that resolves after its session was replaced or dropped leaves the
    session on hand and the stored one untouched; one that is still wanted keeps
    the account and the principal.
  */
  lemma StaleRotationIsIgnored(run: seq<State>, i: nat)
    requires IsRun(run) && run[0].gated && i < |run| && Enabled(run[i], RenewalAnswer)
    ensures var s := run[i];
            var t := Apply(s, RenewalAnswer);
            && t.user == s.user && t.principal == s.principal
            && (s.renewal.value.gen != s.gen ==> t.token == s.token && t.refresh == s.refresh && t.storage == s.storage)
  {
    RunKeeps(run, i);
    var s := run[i];
    if s.renewal.value.gen == s.gen && s.renewal.value.x.answer.Renewed? { RenewedKeeps(s); }
  }

  /**
    A first refusal of a call that carried a token is answered while its principal is
    the current one: it is sent again with the token on hand if that is another one,
    and waits for a renewal otherwise. A call that waited is sent again, with the
    token then on hand, exactly if the renewal worked and the principal is the same.
    Every other reply ends the call.
  */
  lemma RefusalsAnswered(s: State, i: nat, unauthorized: bool, renewed: bool)
    requires i < |s.calls|
    ensures Enabled(s, Reply(i, unauthorized)) ==>
              var call := s.calls[i];
              Apply(s, Reply(i, unauthorized)).calls[i] ==
              if unauthorized && call.token.Some? && |call.sentAs| == 1 && call.principal == s.principal then
                if s.token.Some? && s.token != call.token
                then InFlight(s.token, s.principal, call.sentAs + [Some(s.token.value.user)])
                else AwaitingRenewal(call.token, call.principal, call.sentAs)
              else NoCall
    ensures Enabled(s, RenewalOver(i, renewed)) ==>
              var call := s.calls[i];
              Apply(s, RenewalOver(i, renewed)).calls[i] ==
              if renewed && call.principal == s.principal
              then InFlight(s.token, s.principal, call.sentAs + [if s.token.Some? then Some(s.token.value.user) else None])
              else NoCall
  {
  }

  /** A renewal that is answered and still wanted leaves its new tokens on hand and in storage. */
  lemma RenewalInstalls(run: seq<State>, i: nat)
    requires IsRun(run) && run[0].gated && i < |run| && Enabled(run[i], RenewalAnswer)
    requires run[i].renewal.value.x.answer.Renewed? && run[i].renewal.value.gen == run[i].gen
    ensures var answer := run[i].renewal.value.x.answer;
            var t := Apply(run[i], RenewalAnswer);
            && t.refresh == Some(answer.token) && t.storage == Some(Stored(answer.user, Some(answer.token)))
            && t.token.Some? && t.token.value.user == answer.user && t.token != run[i].token && t.renewal.None?
            && run[i].user == Some(answer.user)
  {
    RunKeeps(run, i);
    RenewedKeeps(run[i]);
    SerialsGrow(run, i);
  }

  /** Access tokens are numbered by the generation they were installed in. */
  lemma {:induction false} SerialsGrow(run: seq<State>, i: nat)
    requires IsRun(run) && i < |run|
    ensures run[i].token.Some? ==> run[i].token.value.serial <= run[i].gen
  {
    if i > 0 {
      SerialsGrow(run, i - 1);
      assert StepAt(run, i - 1);
    }
  }

  /**
    The stored session is thrown away only at a sign-out, when the restore is told
    that its token is refused, or when there is none to exchange.
  */
  lemma ForgetsExactly(s: State, a: Action)
    requires Enabled(s, a) && s.storage.Some?
    ensures Apply(s, a).storage.None? <==>
              || a.DropSession?
              || (a.RestoreAnswer? && s.restore.x.answer.Refused?)
              || (a == RestoreRead(false) && s.storage.value.refresh.None?)
  {
  }

  // Why the gate matters.

  lemma Extend(run: seq<State>, a: Action) returns (longer: seq<State>)
    requires IsRun(run) && Enabled(run[|run| - 1], a) && Paired(run[|run| - 1], a)
    ensures IsRun(longer) && longer[0] == run[0] && longer[|longer| - 1] == Apply(run[|run| - 1], a)
  {
    longer := run + [Apply(run[|run| - 1], a)];
    forall i: nat | i + 1 < |longer| ensures StepAt(longer, i) {
      if i + 1 < |run| { assert StepAt(run, i); }
    }
  }

  /** The server of the example: one account, and the rows, callers and log given. */
  function ExampleServer(rows: map<TokenId, Sessions.Row>, renewer: Sessions.Caller, signer: Sessions.Caller,
                         log: seq<Sessions.Issue>): Sessions.State {
    Sessions.State(0, map[7 := false], rows, [renewer, Sessions.Idle, signer], |log|, log, {7})
  }

  const FIRST := Sessions.Issue(7, 0, None)

  lemma ExampleAsks() returns (run: seq<State>)
    ensures IsRun(run) && !run[0].gated
    ensures run[|run| - 1] == State(false, 0, 0, None, None, None, None, None, NotStarted, [Opening(7)], [],
                                    ExampleServer(map[], Sessions.Idle, Sessions.SigningIn(7), []))
  {
    run := [State(false, 0, 0, None, None, None, None, None, NotStarted, [NoSignIn], [],
                  ExampleServer(map[], Sessions.Idle, Sessions.Idle, []))];
    run := Extend(run, AskSignIn(0, 7));
    run := Extend(run, ReadAccount(0));
  }

  lemma ExampleSignsIn() returns (run: seq<State>)
    ensures IsRun(run) && !run[0].gated
    ensures run[|run| - 1] == State(false, 1, 1, Some(7), Some(Access(7, 1)), Some(0), Some(Stored(7, Some(0))), None,
                                    NotStarted, [NoSignIn], [],
                                    ExampleServer(map[0 := Sessions.Row(7, 0, false, 10)], Sessions.Idle, Sessions.Idle, [FIRST]))
  {
    run := ExampleAsks();
    run := Extend(run, OpenSession(0, 10, true));
    run := Extend(run, FinishSignIn(0));
  }

  /** A renewal starts, and only then the restore reads what the sign-in stored. */
  lemma ExampleRestores() returns (run: seq<State>)
    ensures IsRun(run) && !run[0].gated
    ensures run[|run| - 1] == State(false, 2, 1, Some(7), Some(Access(7, 2)), Some(0), Some(Stored(7, Some(0))),
                                    Some(Renewal(Flying(0), 1, false)), Finished, [NoSignIn], [],
                                    ExampleServer(map[0 := Sessions.Row(7, 0, false, 10)], Sessions.Idle, Sessions.Idle, [FIRST]))
  {
    run := ExampleSignsIn();
    run := Extend(run, StartRenewal);
    run := Extend(run, RestoreRead(true));
  }

  /** The server spends token 0; the app discards the answer, for the generation has moved on. */
  lemma ExampleDiscards() returns (run: seq<State>)
    ensures IsRun(run) && !run[0].gated
    ensures var s := run[|run| - 1];
            && s.refresh == Some(0) && s.renewal == None && !s.gated && s.restore == Finished
            && |s.srv.callers| == 3 && s.srv.callers[0] == Sessions.Idle
            && 0 in s.srv.rows && s.srv.rows[0].spent
  {
    run := ExampleRestores();
    run := Extend(run, Arrive(OfRenewal));
    run := Extend(run, Decide(OfRenewal, 10, true));
    run := Extend(run, RenewalAnswer);
  }

  /**
    Without the gate the composition is not safe: a restore that reads the storage
    after a sign-in puts the token of a renewal in flight back on hand, the
    renewal's result is discarded, and the token is presented again once spent.
  */
  lemma UngatedCanReplay() returns (run: seq<State>)
    ensures IsRun(run) && !run[0].gated && AtReplay(run[|run| - 1])
  {
    run := ExampleDiscards();
    run := Extend(run, StartRenewal);
    run := Extend(run, Arrive(OfRenewal));
    var s := run[|run| - 1];
    assert s.srv.callers[0].Looked? && s.srv.callers[0].row.spent;
  }

  // Why a profile answer has to belong to the session on hand.

  function ExampleApp(gen: nat, principal: nat, u: Option<UserId>, token: Option<Access>, stored: Option<Stored>, call: Call): State {
    State(true, gen, principal, u, token, None, stored, None, Finished, [NoSignIn], [call],
          ExampleServer(map[], Sessions.Idle, Sessions.Idle, []))
  }

  lemma ExampleOpens() returns (run: seq<State>)
    ensures IsRun(run) && run[0].gated
    ensures run[|run| - 1] == ExampleApp(0, 0, None, None, None, NoCall)
  {
    run := [ExampleApp(0, 0, None, None, None, NoCall).(restore := NotStarted)];
    run := Extend(run, RestoreRead(false));
  }

  lemma ExampleEnters() returns (run: seq<State>)
    ensures IsRun(run) && run[0].gated
    ensures run[|run| - 1] == ExampleApp(1, 1, Some(1), Some(Access(1, 1)), Some(Stored(1, None)), NoCall)
  {
    run := ExampleOpens();
    run := Extend(run, AskSignIn(0, 1));
    run := Extend(run, GrantWithoutRefresh(0));
    run := Extend(run, FinishSignIn(0));
  }

  lemma ExampleAsksForProfile() returns (run: seq<State>)
    ensures IsRun(run) && run[0].gated
    ensures run[|run| - 1] == ExampleApp(2, 2, None, None, None, InFlight(Some(Access(1, 1)), 1, [Some(1)]))
  {
    run := ExampleEnters();
    run := Extend(run, Send(0));
    run := Extend(run, DropSession);
  }

  /**
    The gated app as it is can mix two accounts: refresh asks for one account's
    profile, the user signs out and in as another, and the answer is stored with
    the other's tokens.
  */
  lemma LateProfileMixes() returns (run: seq<State>)
    ensures IsRun(run) && run[0].gated
    ensures var s := run[|run| - 1];
            && Enabled(s, Profile(0, false)) && !Paired(s, Profile(0, false))
            && Apply(s, Profile(0, false)).storage == Some(Stored(1, None)) && Apply(s, Profile(0, false)).token == Some(Access(2, 3))
  {
    run := ExampleAsksForProfile();
    run := Extend(run, AskSignIn(0, 2));
    run := Extend(run, GrantWithoutRefresh(0));
    run := Extend(run, FinishSignIn(0));
  }
}
