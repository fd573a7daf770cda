/** Service.Refresh and Service.SignIn run without interruption, against the state machine of Sessions. */
module SessionsService {
  import opened Common
  import opened Sessions

  datatype Answer = Session(refreshToken: TokenId) | Invalid | Unavailable

  class Service {
    var s: State
    ghost var run: seq<State>
    ghost var acts: seq<Action>

    ghost predicate Valid()
      reads this
    {
      IsRun(run, acts) && s == run[|run| - 1]
    }

    method Do(a: Action)
      requires Valid() && Enabled(s, a)
      modifies this
      ensures Valid() && s == Apply(old(s), a) && Inv(old(s))
    {
      RunKeeps(run, acts, |acts|);
      ghost var before, done := run, acts;
      s := Apply(s, a);
      run, acts := run + [s], acts + [a];
      forall i: nat | i < |acts| ensures StepAt(run, acts, i) {
        if i < |done| { assert StepAt(before, done, i); }
      }
    }

    /**
      Refresh, with the answers of the lookup and of the call that follows it. An
      unknown token is refused and changes nothing. A spent one is refused and costs
      the account all its refresh tokens, and nobody else any. A live and unexpired
      one of an account that is there and not marked is exchanged: it is spent and
      its successor stored together, or neither happens. Any other token is refused
      and changes nothing. The answer is Unavailable exactly if a call reported an
      error.
    */
    method Refresh(p: nat, presented: Option<TokenId>, ttl: nat, lookup: Outcome, second: Outcome) returns (r: Answer)
      requires Valid() && p < |s.callers| && s.callers[p].Idle?
      modifies this
      ensures Valid()
      ensures r.Unavailable? <==>
                presented.Some? && (lookup != Done || (presented.value in old(s).rows && second != Done))
      ensures presented.None? || lookup != Done || presented.value !in old(s).rows ==> s == old(s) && !r.Session?
      ensures presented.Some? && lookup == Done && presented.value in old(s).rows ==>
                var t := presented.value;
                var row := old(s).rows[t];
                if row.spent then
                  && !r.Session? && s.log == old(s).log && s.users == old(s).users
                  && (forall other :: other in s.rows ==> other in old(s).rows && s.rows[other] == old(s).rows[other])
                  && forall other :: other in old(s).rows ==>
                       (other !in s.rows <==> second != Failed && old(s).rows[other].user == row.user)
                else if old(s).now < row.expiresAt && row.user in old(s).users && !old(s).users[row.user] && second != Failed then
                  && !r.Invalid? && s.log == old(s).log + [Issue(row.user, row.family, Some(t))]
                  && s.rows == old(s).rows[t := Row(row.user, row.family, true, row.expiresAt)]
                                          [|old(s).log| := Row(row.user, row.family, false, old(s).now + ttl)]
                  && (r.Session? ==> r.refreshToken == |old(s).log|)
                else
                  s == old(s) && !r.Session?
    {
      if presented.None? { return Invalid; }
      var t := presented.value;
      if lookup != Done { return Unavailable; }
      Do(Present(p, t));
      if t !in s.rows { return Invalid; }
      if s.callers[p].row.spent {
        Do(RevokeReused(p, second));
        assert s.callers == old(s).callers;
        return if second == Done then Invalid else Unavailable;
      }
      var fits := CanRotate(s, t);
      var successor := |s.log|;
      Do(Rotate(p, ttl, second));
      assert s.callers == old(s).callers;
      r := if second != Done then Unavailable else if fits then Session(successor) else Invalid;
    }

    /**
      The part of SignIn behind the password check: a session in a family of its own,
      for an account that is there and not marked deleted, and for no other.
    */
    method SignIn(p: nat, u: UserId, ttl: nat, lookup: Outcome, second: Outcome) returns (r: Answer)
      requires Valid() && p < |s.callers| && s.callers[p].Idle?
      modifies this
      ensures Valid()
      ensures r.Unavailable? <==> lookup != Done || (u in old(s).users && !old(s).users[u] && second != Done)
      ensures if lookup == Done && u in old(s).users && !old(s).users[u] && second != Failed then
                && !r.Invalid? && s.log == old(s).log + [Issue(u, old(s).nextFamily, None)]
                && s.rows == old(s).rows[|old(s).log| := Row(u, old(s).nextFamily, false, old(s).now + ttl)]
                && s.nextFamily == old(s).nextFamily + 1
                && (r.Session? ==> r.refreshToken == |old(s).log|)
              else s == old(s) && !r.Session?
    {
      if lookup != Done { return Unavailable; }
      if !Active(s, u) { return Invalid; }
      Do(ReadAccount(p, u));
      var token := |s.log|;
      Do(OpenSession(p, ttl, second));
      assert s.callers == old(s).callers;
      r := if second == Done then Session(token) else Unavailable;
    }
  }
}
