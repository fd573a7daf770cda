/**
  How an open socket learns that its account was deleted. A socket puts itself in
  the hub's index and only then checks the account row; a revocation is announced
  only after the row was marked, takes the account's sockets out of the index and
  signals them one by one. In between anything may run.

  One step is one lock section, one read of the account row, or one turn of a
  socket's loop. Turns that only write to the connection are left out.
*/
module Handshake {
  datatype Why = Connect | Heartbeat | ClientEvent
  datatype Verdict = Active | Revoked | Unverifiable

  datatype Place =
    | Opening                            // not in the index yet
    | Asking(why: Why)                   // about to read the account row
    | Holding(why: Why, verdict: Verdict)
    | Serving                            // waiting in the select loop
    | Leaving                            // the connection is closed, the index entry is not removed yet
    | Closed

  /** drops counts the runs of the callback; late the client events dispatched after the mark; told that a re-check failed. */
  datatype Socket = Socket(user: nat, place: Place, drops: nat, late: nat, told: bool)

  /** An EndSessions call that took sockets out of the index and has not dropped these yet. */
  datatype Ender = Ender(user: nat, todo: set<nat>)

  type Index = map<nat, set<nat>>

  datatype State = State(sockets: map<nat, Socket>, index: Index, enders: seq<Ender>, marked: set<nat>, delivered: set<nat>)

  datatype Action =
    | Open(c: nat, user: nat)
    | Register(c: nat)
    | Read(c: nat, answered: bool)
    | Act(c: nat)
    | Tick(c: nat)
    | Incoming(c: nat)
    | Exit(c: nat)
    | Deregister(c: nat)
    | Mark(user: nat)
    | Announce(user: nat)
    | Drop(ender: nat, c: nat)

  // ---------------------------------------------------------------------------
  // The index
  // ---------------------------------------------------------------------------

  function ConnsOf(index: Index, user: nat): set<nat> {
    if user in index then index[user] else {}
  }

  function Listing(index: Index, user: nat, c: nat): Index {
    index[user := ConnsOf(index, user) + {c}]
  }

  function Unlisting(index: Index, user: nat, c: nat): Index {
    if ConnsOf(index, user) - {c} == {} then index - {user} else index[user := index[user] - {c}]
  }

  // ---------------------------------------------------------------------------
  // Steps
  // ---------------------------------------------------------------------------

  function Start(): State { State(map[], map[], [], {}, {}) }

  /** A turn of a socket's own, as opposed to something that happens to it. */
  predicate IsOwn(a: Action) {
    a.Register? || a.Read? || a.Act? || a.Tick? || a.Incoming? || a.Exit? || a.Deregister?
  }

  function Own(a: Action): nat
    requires IsOwn(a)
  {
    a.c
  }

  predicate OwnEnabled(p: Place, a: Action) {
    match a
    case Register(_) => p.Opening?
    case Read(_, _) => p.Asking?
    case Act(_) => p.Holding?
    case Tick(_) => p.Serving?
    case Incoming(_) => p.Serving?
    case Exit(_) => p.Serving?
    case Deregister(_) => p.Leaving?
    case _ => false
  }

  predicate Enabled(s: State, a: Action) {
    match a
    case Open(c, _) => c !in s.sockets
    case Mark(_) => true
    case Announce(user) => user in s.marked
    case Drop(i, c) => i < |s.enders| && c in s.enders[i].todo
    case _ => Own(a) in s.sockets && OwnEnabled(s.sockets[Own(a)].place, a)
  }

  /** What a step of its own does to a socket. */
  function Moved(s: Socket, a: Action, marked: bool): Socket
    requires IsOwn(a) && OwnEnabled(s.place, a)
  {
    match a
    case Register(_) => s.(place := Asking(Connect))
    case Read(_, answered) =>
      var verdict := if !answered then Unverifiable else if marked then Revoked else Active;
      s.(place := Holding(s.place.why, verdict), told := verdict != Active)
    case Act(_) =>
      if s.place.verdict != Active then s.(place := Leaving)
      else s.(place := Serving, late := s.late + if s.place.why == ClientEvent && marked then 1 else 0)
    case Tick(_) => s.(place := Asking(Heartbeat))
    case Incoming(_) => s.(place := Asking(ClientEvent))
    case Exit(_) => s.(place := Leaving)
    case Deregister(_) => s.(place := Closed)
  }

  function Apply(s: State, a: Action): State
    requires Enabled(s, a)
  {
    match a
    case Open(c, user) => s.(sockets := s.sockets[c := Socket(user, Opening, 0, 0, false)])
    case Mark(user) => s.(marked := s.marked + {user})
    case Announce(user) =>
      s.(index := s.index - {user}, enders := s.enders + [Ender(user, ConnsOf(s.index, user))], delivered := s.delivered + {user})
    case Drop(i, c) => Dropped(s, i, c)
    case _ =>
      var c := Own(a);
      var socket := s.sockets[c];
      s.(sockets := s.sockets[c := Moved(socket, a, socket.user in s.marked)],
         index := if a.Register? then Listing(s.index, socket.user, c)
                  else if a.Deregister? then Unlisting(s.index, socket.user, c) else s.index)
  }

  function Dropped(s: State, i: nat, c: nat): State
    requires i < |s.enders|
  {
    s.(enders := s.enders[i := s.enders[i].(todo := s.enders[i].todo - {c})],
       sockets := if c in s.sockets then s.sockets[c := s.sockets[c].(drops := s.sockets[c].drops + 1)] else s.sockets)
  }

  // ---------------------------------------------------------------------------
  // Invariant
  // ---------------------------------------------------------------------------

  predicate Listed(s: State, c: nat) {
    c in s.sockets && c in ConnsOf(s.index, s.sockets[c].user)
  }

  predicate Pending(s: State, c: nat) {
    exists i | 0 <= i < |s.enders| :: c in s.enders[i].todo
  }

  /** The socket passed its first check, or holds the verdict with which it will. */
  predicate Passed(p: Place) {
    match p
    case Serving => true
    case Asking(why) => why != Connect
    case Holding(_, verdict) => verdict == Active
    case _ => false
  }

  predicate IndexOk(s: State) {
    forall u :: u in s.index ==> s.index[u] != {} && forall c :: c in s.index[u] ==> c in s.sockets && s.sockets[c].user == u
  }

  predicate EnderOk(s: State, i: nat)
    requires i < |s.enders|
  {
    && s.enders[i].user in s.delivered
    && forall c :: c in s.enders[i].todo ==> c in s.sockets && s.sockets[c].user == s.enders[i].user && !Listed(s, c)
  }

  predicate EndersApart(s: State) {
    forall i, j :: 0 <= i < j < |s.enders| ==> s.enders[i].todo !! s.enders[j].todo
  }

  /** Where one socket stands. */
  predicate SocketOk(s: State, c: nat)
    requires c in s.sockets
  {
    var k := s.sockets[c];
    && k.drops == (if Listed(s, c) || Pending(s, c) || k.drops == 0 then 0 else 1)
    && (k.place.Opening? ==> k.drops == 0 && !Listed(s, c) && !Pending(s, c))
    && (k.place.Closed? ==> !Listed(s, c))
    && (!k.place.Opening? && !k.place.Closed? ==> Listed(s, c) || Pending(s, c) || k.drops == 1)
    && (k.user in s.delivered && Passed(k.place) ==> Pending(s, c) || k.drops == 1)
    && (k.user !in s.marked ==> k.late == 0)
    && k.late <= 1
    && (k.late == 1 ==> k.place != Holding(Connect, Active) && k.place != Holding(Heartbeat, Active) &&
                        k.place != Holding(ClientEvent, Active))
    && (k.told ==> k.place.Leaving? || k.place.Closed? || (k.place.Holding? && k.place.verdict != Active))
    && (k.place.Holding? && k.place.verdict != Active ==> k.told)
  }

  predicate Inv(s: State) {
    && s.delivered <= s.marked && IndexOk(s) && EndersApart(s)
    && (forall i :: 0 <= i < |s.enders| ==> EnderOk(s, i))
    && (forall c :: c in s.sockets ==> SocketOk(s, c))
  }

  lemma StartOk()
    ensures Inv(Start())
  {
  }

  lemma StepKeeps(s: State, a: Action)
    requires Inv(s) && Enabled(s, a)
    ensures Inv(Apply(s, a))
  {
    match a
    case Open(c, user) => OpenKeeps(s, c, user);
    case Mark(user) => MarkKeeps(s, user);
    case Announce(user) => AnnounceKeeps(s, user);
    case Drop(i, c) => DropKeeps(s, i, c);
    case _ => OwnKeeps(s, a);
  }

  lemma OpenKeeps(s: State, c: nat, user: nat)
    requires Inv(s) && c !in s.sockets
    ensures Inv(Apply(s, Open(c, user)))
  {
    var t := Apply(s, Open(c, user));
    forall d | d in t.sockets ensures SocketOk(t, d) {
      assert forall i {:trigger s.enders[i]} :: 0 <= i < |t.enders| ==> EnderOk(s, i);
      if d == c {
        assert c !in ConnsOf(t.index, user);
        assert forall i :: 0 <= i < |t.enders| ==> c !in s.enders[i].todo;
      } else {
        assert SocketOk(s, d) && (Pending(s, d) <==> Pending(t, d));
      }
    }
    forall i | 0 <= i < |t.enders| ensures EnderOk(t, i) { assert EnderOk(s, i); }
  }

  lemma MarkKeeps(s: State, user: nat)
    requires Inv(s)
    ensures Inv(Apply(s, Mark(user)))
  {
    var t := Apply(s, Mark(user));
    forall d | d in t.sockets ensures SocketOk(t, d) {
      assert SocketOk(s, d) && (Pending(s, d) <==> Pending(t, d));
    }
    forall i | 0 <= i < |t.enders| ensures EnderOk(t, i) { assert EnderOk(s, i); }
  }

  lemma AnnounceKeeps(s: State, user: nat)
    requires Inv(s) && user in s.marked
    ensures Inv(Apply(s, Announce(user)))
  {
    var t := Apply(s, Announce(user));
    var n := |s.enders|;
    forall i | 0 <= i < |t.enders| ensures EnderOk(t, i) {
      if i < n { assert EnderOk(s, i) && t.enders[i] == s.enders[i]; }
    }
    forall d | d in t.sockets ensures SocketOk(t, d) {
      assert SocketOk(s, d);
      PendingAnnounced(s, user, d);
    }
    forall i, j | 0 <= i < j < |t.enders| ensures t.enders[i].todo !! t.enders[j].todo {
      assert EnderOk(s, i);
    }
  }

  lemma PendingAnnounced(s: State, user: nat, d: nat)
    requires user in s.marked
    ensures Pending(Apply(s, Announce(user)), d) <==> Pending(s, d) || d in ConnsOf(s.index, user)
  {
    var t := Apply(s, Announce(user));
    if Pending(s, d) {
      var i :| 0 <= i < |s.enders| && d in s.enders[i].todo;
      assert t.enders[i] == s.enders[i];
    }
    assert t.enders[|s.enders|] == Ender(user, ConnsOf(s.index, user));
  }

  lemma DropKeeps(s: State, i: nat, c: nat)
    requires Inv(s) && i < |s.enders| && c in s.enders[i].todo
    ensures Inv(Apply(s, Drop(i, c)))
  {
    var t := Apply(s, Drop(i, c));
    assert EnderOk(s, i) && SocketOk(s, c) && Pending(s, c);
    forall j | 0 <= j < |t.enders| ensures EnderOk(t, j) {
      assert EnderOk(s, j);
    }
    forall d | d in t.sockets ensures SocketOk(t, d) {
      assert SocketOk(s, d);
      PendingDropped(s, i, c, d);
    }
  }

  lemma PendingDropped(s: State, i: nat, c: nat, d: nat)
    requires EndersApart(s) && i < |s.enders| && c in s.enders[i].todo
    ensures Pending(Dropped(s, i, c), d) <==> Pending(s, d) && d != c
  {
    var t := Dropped(s, i, c);
    if Pending(s, d) && d != c {
      var j :| 0 <= j < |s.enders| && d in s.enders[j].todo;
      assert d in t.enders[j].todo;
    }
  }

  lemma OwnKeeps(s: State, a: Action)
    requires Inv(s) && IsOwn(a) && Enabled(s, a)
    ensures Inv(Apply(s, a))
  {
    var t, c := Apply(s, a), Own(a);
    assert SocketOk(s, c);
    OwnListing(s, a);
    forall j | 0 <= j < |t.enders| ensures EnderOk(t, j) {
      assert EnderOk(s, j);
      assert a.Register? ==> !Pending(s, c);
    }
    forall d | d in t.sockets ensures SocketOk(t, d) {
      assert SocketOk(s, d) && (Pending(s, d) <==> Pending(t, d));
      if d == c { OwnSocketKeeps(s, a); }
    }
  }

  /** Only registering and deregistering move a socket in or out of the index, and no other socket with it. */
  predicate ListingMoves(s: State, t: State, a: Action)
    requires IsOwn(a)
  {
    && IndexOk(t)
    && (forall d :: d in s.sockets && d != Own(a) ==> (Listed(t, d) <==> Listed(s, d)))
    && (Listed(t, Own(a)) <==> a.Register? || (Listed(s, Own(a)) && !a.Deregister?))
  }

  lemma OwnListing(s: State, a: Action)
    requires Inv(s) && IsOwn(a) && Enabled(s, a)
    ensures ListingMoves(s, Apply(s, a), a)
  {
    if a.Register? {
      RegisterLists(s, a.c);
    } else if a.Deregister? {
      DeregisterUnlists(s, a.c);
    }
  }

  lemma RegisterLists(s: State, c: nat)
    requires Inv(s) && Enabled(s, Register(c))
    ensures ListingMoves(s, Apply(s, Register(c)), Register(c))
  {
    ListingContents(s.index, s.sockets[c].user, c);
  }

  lemma DeregisterUnlists(s: State, c: nat)
    requires Inv(s) && Enabled(s, Deregister(c))
    ensures ListingMoves(s, Apply(s, Deregister(c)), Deregister(c))
  {
    UnlistingContents(s.index, s.sockets[c].user, c);
  }

  lemma ListingContents(index: Index, user: nat, c: nat)
    ensures forall v :: ConnsOf(Listing(index, user, c), v) == ConnsOf(index, v) + if v == user then {c} else {}
  {
  }

  lemma UnlistingContents(index: Index, user: nat, c: nat)
    ensures forall v :: ConnsOf(Unlisting(index, user, c), v) == ConnsOf(index, v) - if v == user then {c} else {}
  {
  }

  lemma OwnSocketKeeps(s: State, a: Action)
    requires Inv(s) && IsOwn(a) && Enabled(s, a)
    requires Pending(Apply(s, a), Own(a)) <==> Pending(s, Own(a))
    requires Listed(Apply(s, a), Own(a)) <==> a.Register? || (Listed(s, Own(a)) && !a.Deregister?)
    ensures SocketOk(Apply(s, a), Own(a))
  {
    assert SocketOk(s, Own(a));
  }

  // ---------------------------------------------------------------------------
  // Runs
  // ---------------------------------------------------------------------------

  ghost predicate StepAt(run: seq<State>, i: nat)
    requires i + 1 < |run|
  {
    exists a :: Enabled(run[i], a) && run[i + 1] == Apply(run[i], a)
  }

  ghost predicate Run(run: seq<State>) {
    |run| > 0 && run[0] == Start() && forall i :: 0 <= i < |run| - 1 ==> StepAt(run, i)
  }

  lemma {:induction false} RunKeeps(run: seq<State>, i: nat)
    requires Run(run) && i < |run|
    ensures Inv(run[i])
  {
    if i == 0 {
      StartOk();
    } else {
      RunKeeps(run, i - 1);
      assert StepAt(run, i - 1);
      var a :| Enabled(run[i - 1], a) && run[i] == Apply(run[i - 1], a);
      StepKeeps(run[i - 1], a);
    }
  }

  /**
    No revocation is lost: once an announcement for an account was handled, every
    socket of it is gone or going, was signalled or is about to be, or has its
    first check still to come.
  */
  lemma NoRevocationIsLost(run: seq<State>, i: nat, c: nat)
    requires Run(run) && i < |run| && c in run[i].sockets && run[i].sockets[c].user in run[i].delivered
    ensures var k := run[i].sockets[c];
            || k.place.Closed? || k.place.Leaving? || (k.place.Holding? && k.place.verdict != Active)
            || k.drops == 1 || Pending(run[i], c)
            || k.place.Opening? || k.place == Asking(Connect)
  {
    RunKeeps(run, i);
    assert SocketOk(run[i], c);
  }

  /** That first check sees the mark: it lets nobody in. */
  lemma TheFirstCheckSeesIt(run: seq<State>, i: nat, c: nat, answered: bool)
    requires Run(run) && i < |run| && c in run[i].sockets && run[i].sockets[c].user in run[i].delivered
    requires run[i].sockets[c].place == Asking(Connect)
    ensures Apply(run[i], Read(c, answered)).sockets[c].place in {Holding(Connect, Revoked), Holding(Connect, Unverifiable)}
  {
    RunKeeps(run, i);
  }

  /** The callback of a socket runs at most once, never before it registered, and is not owed once it ran. */
  lemma DropsRunOnce(run: seq<State>, i: nat, c: nat)
    requires Run(run) && i < |run| && c in run[i].sockets
    ensures run[i].sockets[c].drops <= 1
    ensures run[i].sockets[c].drops == 1 ==> !Listed(run[i], c) && !Pending(run[i], c) && !run[i].sockets[c].place.Opening?
    ensures run[i].sockets[c].place.Closed? ==> !Listed(run[i], c)
  {
    RunKeeps(run, i);
    assert SocketOk(run[i], c);
  }

  /**
    After the mark a socket dispatches at most one client event, the one whose
    check was read before it, and none after a check that saw the mark.
  */
  lemma AtMostOneLateEvent(run: seq<State>, i: nat, c: nat)
    requires Run(run) && i < |run| && c in run[i].sockets
    ensures run[i].sockets[c].late <= 1
    ensures run[i].sockets[c].told || run[i].sockets[c].late == 1 ==> run[i].sockets[c].place != Holding(ClientEvent, Active)
  {
    RunKeeps(run, i);
    assert SocketOk(run[i], c);
  }

  // ---------------------------------------------------------------------------
  // Without any announcement
  // ---------------------------------------------------------------------------

  /** How many turns a socket of a marked account still has. */
  function TurnsLeft(p: Place): nat {
    match p
    case Opening => 7
    case Asking(why) => if why == Connect then 6 else 3
    case Holding(_, verdict) => if verdict == Active then 5 else 2
    case Serving => 4
    case Leaving => 1
    case Closed => 0
  }

  /** How many of the steps between two moments of a run were the socket's own. */
  ghost function OwnSteps(run: seq<State>, c: nat, i: nat, j: nat): nat
    requires i <= j < |run|
    decreases j
  {
    if i == j then 0
    else OwnSteps(run, c, i, j - 1) +
         if c in run[j - 1].sockets && c in run[j].sockets && run[j].sockets[c].place != run[j - 1].sockets[c].place then 1 else 0
  }

  lemma StepShrinks(s: State, a: Action, c: nat)
    requires Enabled(s, a) && c in s.sockets && s.sockets[c].user in s.marked
    ensures var t := Apply(s, a);
            && c in t.sockets && t.sockets[c].user == s.sockets[c].user && t.sockets[c].user in t.marked
            && (t.sockets[c].place == s.sockets[c].place || TurnsLeft(t.sockets[c].place) < TurnsLeft(s.sockets[c].place))
  {
  }

  /**
    Even if every announcement is lost: once its account is marked, a socket
    makes at most seven more turns, and then it is closed.
  */
  lemma {:induction false} ClosesWithinSevenTurns(run: seq<State>, c: nat, i: nat, j: nat)
    requires Run(run) && i <= j < |run| && c in run[i].sockets && run[i].sockets[c].user in run[i].marked
    ensures c in run[j].sockets && run[j].sockets[c].user == run[i].sockets[c].user && run[j].sockets[c].user in run[j].marked
    ensures OwnSteps(run, c, i, j) + TurnsLeft(run[j].sockets[c].place) <= TurnsLeft(run[i].sockets[c].place) <= 7
    decreases j
  {
    if i < j {
      ClosesWithinSevenTurns(run, c, i, j - 1);
      assert StepAt(run, j - 1);
      var a :| Enabled(run[j - 1], a) && run[j] == Apply(run[j - 1], a);
      StepShrinks(run[j - 1], a, c);
    }
  }

  /**
    A check that is answered for an account that is not marked lets the socket serve,
    or go on serving; any other check ends it.
  */
  lemma ServedExactly(s: State, c: nat, answered: bool)
    requires Enabled(s, Read(c, answered))
    ensures var t := Apply(s, Read(c, answered));
            && Enabled(t, Act(c))
            && Apply(t, Act(c)).sockets[c].place == if answered && s.sockets[c].user !in s.marked then Serving else Leaving
  {
  }

  /** Until then it always has a turn it can take. */
  lemma NeverStuck(s: State, c: nat)
    requires c in s.sockets && !s.sockets[c].place.Closed?
    ensures exists a :: IsOwn(a) && Own(a) == c && Enabled(s, a)
  {
    var a := match s.sockets[c].place
      case Opening => Register(c)
      case Asking(_) => Read(c, true)
      case Holding(_, _) => Act(c)
      case Serving => Tick(c)
      case Leaving => Deregister(c);
    assert Enabled(s, a);
  }

  // ---------------------------------------------------------------------------
  // The index in memory
  // ---------------------------------------------------------------------------

  /** The drop callback of a connection: a channel that it closes. */
  class Signal {
    ghost const user: nat
    ghost const conn: nat
    var calls: nat

    constructor (ghost user: nat, ghost conn: nat)
      ensures this.user == user && this.conn == conn && calls == 0
    {
      this.user, this.conn, calls := user, conn, 0;
    }

    method Drop()
      requires calls == 0
      modifies this
      ensures calls == 1
    {
      calls := calls + 1;
    }
  }

  /** A user's row is not empty, and none of the callbacks in it has run. */
  ghost predicate RowOk(signals: set<Signal>, user: nat, row: map<nat, Signal>)
    reads signals
  {
    row.Keys != {} && forall c :: c in row ==> row[c] in signals && row[c].user == user && row[c].conn == c && row[c].calls == 0
  }

  lemma ShrunkRow(signals: set<Signal>, user: nat, row: map<nat, Signal>, conn: nat)
    requires RowOk(signals, user, row)
    ensures (row - {conn}).Keys == row.Keys - {conn}
    ensures row.Keys - {conn} != {} ==> RowOk(signals, user, row - {conn})
  {
    assert (row - {conn}).Keys == row.Keys - {conn};
  }

  lemma GrownRow(signals: set<Signal>, user: nat, row: map<nat, Signal>, conn: nat, drop: Signal)
    requires (row.Keys == {} || RowOk(signals, user, row)) && drop.user == user && drop.conn == conn && drop.calls == 0
    ensures row[conn := drop].Keys == row.Keys + {conn} && RowOk(signals + {drop}, user, row[conn := drop])
  {
    assert row[conn := drop].Keys == row.Keys + {conn};
  }

  class Hub {
    var sockets: map<nat, map<nat, Signal>>
    ghost var signals: set<Signal>

    /** The connections listed for a user. */
    ghost function Conns(user: nat): set<nat>
      reads this
    {
      if user in sockets then sockets[user].Keys else {}
    }

    ghost predicate Valid()
      reads this, signals
    {
      forall u :: u in sockets ==> RowOk(signals, u, sockets[u])
    }

    constructor ()
      ensures Valid() && sockets == map[]
    {
      sockets, signals := map[], {};
    }

    method Register(user: nat, conn: nat, drop: Signal)
      requires Valid() && drop.user == user && drop.conn == conn && drop.calls == 0
      modifies this
      ensures Valid() && forall u :: Conns(u) == old(Conns(u)) + if u == user then {conn} else {}
      ensures user in sockets && conn in sockets[user] && sockets[user][conn] == drop
      ensures forall u :: u in old(sockets) ==>
                u in sockets && forall c :: c in old(sockets)[u] && (u != user || c != conn) ==> c in sockets[u] && sockets[u][c] == old(sockets)[u][c]
    {
      var row: map<nat, Signal> := if user in sockets then sockets[user] else map[];
      forall u | u in sockets ensures RowOk(signals + {drop}, u, sockets[u]) {
        assert RowOk(signals, u, sockets[u]);
      }
      GrownRow(signals, user, row, conn, drop);
      sockets := sockets[user := row[conn := drop]];
      signals := signals + {drop};
    }

    method Deregister(user: nat, conn: nat)
      requires Valid()
      modifies this`sockets
      ensures Valid() && forall u :: Conns(u) == old(Conns(u)) - if u == user then {conn} else {}
      ensures forall u, c :: c in Conns(u) ==> u in old(sockets) && c in old(sockets)[u] && sockets[u][c] == old(sockets)[u][c]
    {
      if user in sockets {
        var row: map<nat, Signal> := sockets[user] - {conn};
        ShrunkRow(signals, user, sockets[user], conn);
        if row.Keys == {} {
          sockets := sockets - {user};
        } else {
          sockets := sockets[user := row];
        }
      }
    }

    /** Every socket of the account is forgotten, and then called exactly once. */
    method EndSessions(user: nat)
      requires Valid()
      modifies this`sockets, if user in sockets then sockets[user].Values else {}
      ensures Valid() && sockets == old(sockets) - {user}
      ensures user in old(sockets) ==> forall c :: c in old(sockets)[user] ==> old(sockets)[user][c].calls == 1
    {
      if user in sockets {
        var row := sockets[user];
        assert RowOk(signals, user, row);
        sockets := sockets - {user};
        DropAll(row);
        forall u | u in sockets ensures RowOk(signals, u, sockets[u]) {
          assert old(RowOk(signals, u, sockets[u]));
        }
      }
    }
  }

  method DropAll(row: map<nat, Signal>)
    requires forall c :: c in row ==> row[c].calls == 0 && row[c].conn == c
    modifies row.Values
    ensures forall c :: c in row ==> row[c].calls == 1
  {
    var left := row.Keys;
    while left != {}
      invariant left <= row.Keys
      invariant forall c :: c in row ==> row[c].calls == if c in left then 0 else 1
      decreases left
    {
      var c :| c in left;
      row[c].Drop();
      left := left - {c};
    }
  }
}
