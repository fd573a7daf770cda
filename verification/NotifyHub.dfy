/**
  The notification hub of one replica: the sockets of every user, fed from one
  subscription a user. Every method runs under the hub's mutex, so a run of the
  hub is a sequence of these calls; Valid is what all of them keep.

  The ghost fields are history: what was broadcast on a feed, what a socket's
  channel was sent, and why the channel was closed.
*/
module NotifyHub {
  const BUFFER := 16

  datatype Event = Event(kind: string, analysis: string, conversation: string)

  datatype Ending = Running | Left | CutOff

  /** One socket's event channel. */
  class Subscriber {
    var buffer: seq<Event>
    var closes: nat
    ghost const feed: Feed
    ghost const joined: nat
    ghost var taken: seq<Event>
    ghost var ending: Ending

    constructor (ghost home: Feed)
      ensures buffer == [] && closes == 0 && feed == home && joined == |home.log| && taken == [] && ending == Running
    {
      buffer, closes := [], 0;
      feed, joined, taken, ending := home, |home.log|, [], Running;
    }

    /** Everything the channel was ever sent. */
    ghost function Sent(): seq<Event>
      reads this
    {
      taken + buffer
    }

    /** What the channel holds is a contiguous part of its feed's history, and all of it while it is open. */
    ghost predicate Consistent()
      reads this, feed
    {
      && |buffer| <= BUFFER
      && joined + |Sent()| <= |feed.log|
      && Sent() == feed.log[joined..joined + |Sent()|]
      && closes == (if ending == Running then 0 else 1)
      && (ending == Running ==> joined + |Sent()| == |feed.log|)
      && (ending == CutOff ==> joined + |Sent()| < |feed.log|)
    }

    /** A send never happens on a closed channel, which would panic. */
    method Send(event: Event)
      requires closes == 0 && |buffer| < BUFFER
      modifies this`buffer
      ensures buffer == old(buffer) + [event]
    {
      buffer := buffer + [event];
    }

    /** Closing twice would panic. */
    method Close(ghost why: Ending)
      requires closes == 0
      modifies this`closes, this`ending
      ensures closes == 1 && ending == why
    {
      closes := closes + 1;
      ending := why;
    }

    /** The socket's loop takes the next event; None when the channel is closed and drained. */
    method Receive() returns (event: seq<Event>)
      modifies this`buffer, this`taken
      ensures event == if old(buffer) == [] then [] else [old(buffer)[0]]
      ensures taken == old(taken) + event && Sent() == old(Sent())
    {
      if buffer == [] { return []; }
      event := [buffer[0]];
      taken := taken + event;
      buffer := buffer[1..];
    }
  }

  /** The event was put in the buffer, or the socket was cut off because that was full. */
  twostate predicate Delivered(s: Subscriber, event: Event)
    reads s
  {
    && s.taken == old(s.taken)
    && if |old(s.buffer)| < 16 then s.ending == Running && s.closes == 0 && s.buffer == old(s.buffer) + [event]
       else s.ending == CutOff && s.closes == 1 && s.buffer == old(s.buffer)
  }

  /** One user's subscription and the sockets it fans out to. */
  class Feed {
    const user: nat
    var subs: set<Subscriber>
    var cancels: nat
    ghost var log: seq<Event>

    constructor (user: nat)
      ensures this.user == user && subs == {} && cancels == 0 && log == []
    {
      this.user := user;
      subs, cancels, log := {}, 0, [];
    }

    /** Every socket is offered the event: sent to it if its buffer has room, cut off otherwise. */
    method Deliver(event: Event)
      requires forall s :: s in subs ==> s.closes == 0 && s.ending == Running
      modifies this`subs, subs
      ensures subs == set s | s in old(subs) && |old(s.buffer)| < 16
      ensures forall s :: s in old(subs) ==> Delivered(s, event)
    {
      var left := subs;
      while left != {}
        invariant left <= old(subs)
        invariant subs == left + set s | s in old(subs) - left && |old(s.buffer)| < 16
        invariant forall s :: s in left ==> unchanged(s)
        invariant forall s :: s in old(subs) - left ==> Delivered(s, event)
        decreases left
      {
        var s :| s in left;
        if |s.buffer| < BUFFER {
          s.Send(event);
        } else {
          subs := subs - {s};
          s.Close(CutOff);
        }
        left := left - {s};
      }
    }
  }

  class Hub {
    var users: map<nat, Feed>
    ghost var feeds: set<Feed>
    ghost var sockets: set<Subscriber>

    ghost predicate Current(feed: Feed)
      reads this
    {
      feed.user in users && users[feed.user] == feed
    }

    /** A feed has a socket exactly while it is its user's current one, and was cancelled exactly when removed. */
    ghost predicate FeedOk(feed: Feed)
      reads this, feed
    {
      && (Current(feed) <==> feed.subs != {})
      && feed.cancels == (if Current(feed) then 0 else 1)
      && feed.subs <= sockets
      && (forall s :: s in feed.subs ==> s.feed == feed)
    }

    ghost predicate SocketOk(s: Subscriber)
      reads this, s, s.feed
    {
      s.feed in feeds && s.Consistent() && (s in s.feed.subs <==> s.ending == Running)
    }

    ghost predicate Valid()
      reads this, feeds, sockets
    {
      UsersOk() && (forall f :: f in feeds ==> FeedOk(f)) && (forall s :: s in sockets ==> s.feed in feeds && SocketOk(s))
    }

    ghost predicate UsersOk()
      reads this
    {
      forall u :: u in users ==> users[u] in feeds && users[u].user == u
    }

    /** The other feeds, and the sockets a call did not touch, are as they were. */
    twostate predicate OnlyTouched(new feed: Feed, new touched: set<Subscriber>)
      reads this, feeds, sockets
    {
      && old(feeds) <= feeds && old(sockets) <= sockets
      && (forall f :: f in old(feeds) && f != feed ==> unchanged(f))
      && (forall s :: s in old(sockets) && s !in touched ==> unchanged(s))
    }

    /** The entry of the feed's user is the only one that may have changed: set to the feed, or removed with its last socket. */
    twostate predicate EntryFollows(new feed: Feed)
      reads this, feed
    {
      && (users == old(users)[feed.user := feed] || users == old(users) - {feed.user})
      && (feed.subs != {} <==> feed.user in users)
      && feed.cancels == if feed.user in users then 0 else 1
    }

    twostate lemma FeedsStillOk(new feed: Feed)
      requires old(Valid()) && EntryFollows(feed) && feeds == old(feeds) + {feed} && old(sockets) <= sockets
      requires forall f :: f in old(feeds) && f != feed ==> unchanged(f)
      requires feed.user in old(users) ==> old(users)[feed.user] == feed
      requires feed.subs <= sockets && forall s :: s in feed.subs ==> s.feed == feed
      ensures UsersOk() && forall f :: f in feeds ==> FeedOk(f)
    {
      forall f | f in feeds ensures FeedOk(f) {
        if f != feed {
          assert old(FeedOk(f));
          assert Current(f) <==> old(Current(f));
        }
      }
    }

    /** If the touched feed and its sockets come out well, everything does. */
    twostate lemma StillValid(new feed: Feed, new touched: set<Subscriber>)
      requires old(Valid()) && OnlyTouched(feed, touched)
      requires feeds == old(feeds) + {feed} && old(sockets) <= sockets
      requires UsersOk() && forall f :: f in feeds ==> FeedOk(f)
      requires forall s :: s in sockets && (s !in old(sockets) || s in touched || s.feed == feed) ==> s.feed in feeds && SocketOk(s)
      ensures Valid()
    {
      forall s | s in sockets ensures s.feed in feeds && SocketOk(s) {
        if s in old(sockets) && s !in touched && s.feed != feed { assert old(SocketOk(s)) && unchanged(s.feed); }
      }
    }

    twostate lemma Joining(new feed: Feed, new sub: Subscriber)
      requires old(Valid()) && OnlyTouched(feed, {}) && EntryFollows(feed)
      requires feeds == old(feeds) + {feed} && sockets == old(sockets) + {sub} && sub !in old(sockets)
      requires if feed.user in old(users) then feed == old(users)[feed.user] && feed in old(feeds) && feed.log == old(feed.log) &&
                 feed.subs == old(feed.subs) + {sub}
               else feed !in old(feeds) && feed.subs == {sub}
      requires sub.buffer == sub.taken == [] && sub.closes == 0 && sub.ending == Running && sub.feed == feed && sub.joined == |feed.log|
      ensures Valid()
    {
      FeedsStillOk(feed);
      forall s | s in sockets && (s !in old(sockets) || s.feed == feed) ensures s.feed in feeds && SocketOk(s) {
        if s != sub { assert old(SocketOk(s)); }
      }
      StillValid(feed, {});
    }

    twostate lemma Leaving(new feed: Feed, new sub: Subscriber)
      requires old(Valid()) && OnlyTouched(feed, {sub}) && EntryFollows(feed)
      requires sub in old(sockets) && sub.feed == feed && feed in old(feeds) && old(Current(feed)) && old(sub.ending) == Running
      requires feeds == old(feeds) && sockets == old(sockets)
      requires feed.subs == old(feed.subs) - {sub} && feed.log == old(feed.log)
      requires sub.ending == Left && sub.closes == 1 && sub.buffer == old(sub.buffer) && sub.taken == old(sub.taken)
      ensures Valid()
    {
      assert old(SocketOk(sub)) && old(FeedOk(feed));
      FeedsStillOk(feed);
      forall s | s in sockets && (s == sub || s.feed == feed) ensures s.feed in feeds && SocketOk(s) {
        assert old(SocketOk(s));
      }
      StillValid(feed, {sub});
    }

    twostate lemma DeliveredIsOk(new s: Subscriber, new feed: Feed, event: Event)
      requires feed in old(feeds) && s in old(sockets) && old(SocketOk(s)) && s.feed == feed && feed in feeds && feed.log == old(feed.log) + [event]
      requires if old(s.ending) == Running then Delivered(s, event) else unchanged(s)
      requires s in feed.subs <==> s.ending == Running
      ensures SocketOk(s)
    {
      if |old(s.buffer)| < 16 && old(s.ending) == Running {
        assert s.Sent() == old(s.Sent()) + [event];
      } else {
        assert s.Sent() == old(s.Sent());
      }
    }

    twostate lemma Broadcasting(new feed: Feed, event: Event)
      requires feed in old(feeds) && old(Valid()) && OnlyTouched(feed, old(feed.subs))
      requires feeds == old(feeds) && sockets == old(sockets) && feed.log == old(feed.log) + [event]
      requires if old(Current(feed)) then EntryFollows(feed) else users == old(users) && feed.cancels == old(feed.cancels)
      requires feed.subs == set s | s in old(feed.subs) && |old(s.buffer)| < 16
      requires forall s :: s in old(feed.subs) ==> Delivered(s, event)
      ensures Valid()
    {
      assert old(FeedOk(feed));
      forall s | s in sockets && (s in old(feed.subs) || s.feed == feed) ensures s.feed in feeds && SocketOk(s) {
        assert old(SocketOk(s));
        DeliveredIsOk(s, feed, event);
      }
      if old(Current(feed)) { FeedsStillOk(feed); } else { NothingMoved(feed); }
      StillValid(feed, old(feed.subs));
    }

    twostate lemma NothingMoved(new feed: Feed)
      requires old(Valid()) && OnlyTouched(feed, {}) && feeds == old(feeds) && sockets == old(sockets) && users == old(users)
      requires feed in old(feeds) && feed.cancels == old(feed.cancels) && feed.subs == old(feed.subs)
      ensures UsersOk() && forall f :: f in feeds ==> FeedOk(f)
    {
      forall f | f in feeds ensures FeedOk(f) { assert old(FeedOk(f)); }
    }

    constructor ()
      ensures Valid() && users == map[] && feeds == {} && sockets == {}
    {
      users, feeds, sockets := map[], {}, {};
    }

    method Subscribe(user: nat) returns (sub: Subscriber, feed: Feed)
      requires Valid()
      modifies this, if user in users then {users[user]} else {}
      ensures Valid() && fresh(sub) && sockets == old(sockets) + {sub}
      ensures feed == sub.feed && feed.user == user && Current(feed)
      ensures if user in old(users) then feed == old(users[user]) && users == old(users) && feeds == old(feeds)
              else fresh(feed) && users == old(users)[user := feed] && feeds == old(feeds) + {feed} && feed.log == []
      ensures feed.subs == (if user in old(users) then old(users[user].subs) else {}) + {sub}
      ensures user in old(users) ==> feed.log == old(users[user].log)
      ensures sub.ending == Running && sub.Sent() == []
    {
      if user in users {
        feed := users[user];
      } else {
        feed := new Feed(user);
        users := users[user := feed];
        feeds := feeds + {feed};
      }
      sub := new Subscriber(feed);
      feed.subs := feed.subs + {sub};
      sockets := sockets + {sub};
      Joining(feed, sub);
    }

    /** Removing a socket again, or one that was cut off, changes nothing. */
    method Unsubscribe(user: nat, sub: Subscriber)
      requires Valid() && sub in sockets && sub.feed.user == user
      modifies this`users, sub, sub.feed
      ensures Valid()
      ensures old(sub.ending) != Running ==>
                users == old(users) && sub.ending == old(sub.ending) && sub.feed.subs == old(sub.feed.subs)
      ensures old(sub.ending) == Running ==>
                && sub.ending == Left && sub.feed.subs == old(sub.feed.subs) - {sub}
                && users == if old(sub.feed.subs) == {sub} then old(users) - {user} else old(users)
      ensures sub.Sent() == old(sub.Sent()) && sub.feed.log == old(sub.feed.log)
    {
      if user in users && sub in users[user].subs {
        var feed := users[user];
        feed.subs := feed.subs - {sub};
        sub.Close(Left);
        if feed.subs == {} {
          users := users - {user};
          feed.cancels := feed.cancels + 1;
        }
        Leaving(feed, sub);
      }
    }

    /**
      An event that the pump of feed holds. A feed that is no longer current
      delivers nothing; a socket with a full buffer is cut off.
    */
    method BroadcastLocal(user: nat, feed: Feed, event: Event)
      requires Valid() && feed in feeds && feed.user == user
      modifies this`users, feed, feed.subs
      ensures Valid() && feed.log == old(feed.log) + [event]
      ensures !old(Current(feed)) ==> users == old(users) && feed.subs == old(feed.subs)
      ensures feed.subs == set s | s in old(feed.subs) && |old(s.buffer)| < 16
      ensures forall s :: s in old(feed.subs) ==> Delivered(s, event)
      ensures users == if old(Current(feed)) && feed.subs == {} then old(users) - {user} else old(users)
    {
      assert FeedOk(feed) && forall s :: s in feed.subs ==> SocketOk(s);
      feed.log := feed.log + [event];
      if user in users && users[user] == feed {
        feed.Deliver(event);
        if feed.subs == {} {
          users := users - {user};
          feed.cancels := feed.cancels + 1;
        } else {
          assert users == old(users)[user := feed];
        }
      }
      Broadcasting(feed, event);
    }

    /** A socket takes its next event, between any two calls of the hub. */
    method Next(sub: Subscriber) returns (event: seq<Event>)
      requires Valid() && sub in sockets
      modifies sub`buffer, sub`taken
      ensures Valid() && sub.taken == old(sub.taken) + event
      ensures event == [] ==> old(sub.buffer) == [] && sub.taken == sub.Sent()
    {
      assert SocketOk(sub);
      event := sub.Receive();
      Taking(sub);
    }

    twostate lemma Taking(new sub: Subscriber)
      requires old(Valid()) && sub in old(sockets) && users == old(users) && feeds == old(feeds) && sockets == old(sockets)
      requires forall f :: f in feeds ==> unchanged(f)
      requires forall s :: s in sockets && s != sub ==> unchanged(s)
      requires sub.Sent() == old(sub.Sent()) && |sub.buffer| <= BUFFER && sub.closes == old(sub.closes) && sub.ending == old(sub.ending)
      ensures Valid()
    {
      forall f | f in feeds ensures FeedOk(f) { assert old(FeedOk(f)); }
      forall s | s in sockets ensures s.feed in feeds && SocketOk(s) { assert old(SocketOk(s)); }
    }

    /**
      What a socket took is a prefix of what was broadcast on its feed since it
      subscribed. Once its channel is drained it took everything, unless it left
      or was cut off; and no removed feed has a socket that is still running.
    */
    lemma NoGaps(s: Subscriber)
      requires Valid() && s in sockets
      ensures s.joined <= |s.feed.log| && s.taken <= s.feed.log[s.joined..]
      ensures s.ending == Running && s.buffer == [] ==> s.taken == s.feed.log[s.joined..]
      ensures s.ending == Running <==> Current(s.feed) && s in s.feed.subs
      ensures s.ending == CutOff ==> s.taken + s.buffer < s.feed.log[s.joined..]
      ensures s.feed.cancels <= 1 && s.closes <= 1
    {
      assert SocketOk(s) && FeedOk(s.feed);
    }
  }
}
