/** Refresh-token rotation with reuse detection
    (app/services/auth_flow.py:218-257, 419-442, 695-781, 942-965, app/api/auth_flow.py:155-164). */
module RefreshTokens {
  import opened Names
  import opened Sets

  type Token = nat
  type SessionId = nat

  /** Hashing as injective constructors: the keyed hash in use, and the older plain one. */
  datatype Hash = Hmac(token: Token) | Legacy(token: Token)

  datatype SessionStatus = Active | Revoked | Expired

  datatype Session = Session(
    person: nat, status: SessionStatus, hash: Hash, previous: Option<Hash>, expiresAt: int, revokedAt: Option<int>)

  /** session_token_hash_candidates. */
  function Candidates(t: Token): set<Hash> {
    {Hmac(t), Legacy(t)}
  }

  predicate Live(s: Session) {
    s.status == Active && s.revokedAt == None
  }

  datatype Outcome =
    | Issued(token: Token, session: SessionId)
    | Exchanged(renewed: Token, session: SessionId)
    | TokenExpired(session: SessionId)
    | ReuseDetected(session: SessionId)
    | InvalidToken
    | LoggedOut(session: SessionId)
    | NoSession
    | RevokedSome(count: nat)

  /** `t` is the current token of a live session. */
  predicate CurrentOf(sessions: map<SessionId, Session>, sid: SessionId, t: Token) {
    sid in sessions && Live(sessions[sid]) && sessions[sid].hash in Candidates(t)
  }

  /** `t` is the token that a live session used just before its current one. */
  predicate PreviousOf(sessions: map<SessionId, Session>, sid: SessionId, t: Token) {
    sid in sessions && Live(sessions[sid]) && sessions[sid].previous.Some?
        && sessions[sid].previous.value in Candidates(t)
  }

  /** The session goes on under a new token. */
  function Rotated(s: Session, renewed: Token): Session {
    s.(previous := Some(s.hash), hash := Hmac(renewed))
  }

  /** A session not yet revoked, expired ones too, whose current token is `t`. */
  predicate Endable(sessions: map<SessionId, Session>, sid: SessionId, t: Token) {
    sid in sessions && sessions[sid].hash in Candidates(t) && sessions[sid].revokedAt == None
  }

  /** Tokens keep their session and sessions their person, spent tokens stay spent, sessions that
      ended stay ended. */
  ghost predicate Later(s: map<SessionId, Session>, o: map<Token, SessionId>, p: set<Token>,
      s': map<SessionId, Session>, o': map<Token, SessionId>, p': set<Token>) {
    && (forall t :: t in o ==> t in o' && o'[t] == o[t])
    && p <= p'
    && (forall sid :: sid in s ==> sid in s' && s'[sid].person == s[sid].person && (Live(s'[sid]) ==> Live(s[sid])))
  }

  class AuthFlow {
    var sessions: map<SessionId, Session>
    /** Which session each token was ever issued for. */
    ghost var owner: map<Token, SessionId>
    /** Tokens that were exchanged successfully. */
    ghost var spent: set<Token>

    ghost predicate Valid()
      reads this
    {
      && spent <= owner.Keys
      && (forall sid :: sid in sessions ==>
            sessions[sid].hash.token in owner && owner[sessions[sid].hash.token] == sid
                && sessions[sid].hash.token !in spent)
      && (forall sid :: sid in sessions && sessions[sid].previous.Some? ==>
            sessions[sid].previous.value.token in owner && owner[sessions[sid].previous.value.token] == sid)
    }

    twostate predicate Onward()
      reads this
    {
      Later(old(sessions), old(owner), old(spent), sessions, owner, spent)
    }

    /** A new session under the token `random`. */
    method IssueTokens(person: nat, now: int, ttl: nat, random: Token) returns (o: Outcome)
      requires Valid() && random !in owner
      modifies this
      ensures Valid() && Onward()
      ensures o.Issued? && o.session !in old(sessions) && o.token == random
      ensures sessions == old(sessions)[o.session := Session(person, Active, Hmac(random), None, now + ttl, None)]
      ensures owner == old(owner)[random := o.session] && spent == old(spent)
    {
      var sid := Fresh(sessions);
      sessions := sessions[sid := Session(person, Active, Hmac(random), None, now + ttl, None)];
      owner := owner[random := sid];
      return Issued(random, sid);
    }

    /** Exchange, expire or revoke, as the presented token says; committed in every case. */
    method Refresh(t: Token, now: int, random: Token) returns (o: Outcome)
      requires Valid() && random !in owner
      modifies this
      ensures Valid() && Onward()
      ensures o.Exchanged? <==> exists sid :: CurrentOf(old(sessions), sid, t) && old(sessions)[sid].expiresAt > now
      ensures o.TokenExpired? <==> exists sid :: CurrentOf(old(sessions), sid, t) && old(sessions)[sid].expiresAt <= now
      ensures o.ReuseDetected? <==>
        (forall sid :: !CurrentOf(old(sessions), sid, t)) && exists sid :: PreviousOf(old(sessions), sid, t)
      ensures o.Exchanged? ==>
        CurrentOf(old(sessions), o.session, t) && o.renewed == random && owner == old(owner)[random := o.session]
      ensures o.Exchanged? ==>
        t !in old(spent) && t in old(owner) && old(owner)[t] == o.session && spent == old(spent) + {t}
      ensures o.Exchanged? ==> sessions == old(sessions)[o.session := Rotated(old(sessions)[o.session], o.renewed)]
      ensures o.ReuseDetected? ==> PreviousOf(old(sessions), o.session, t)
      ensures o.ReuseDetected? ==>
        sessions == old(sessions)[o.session := old(sessions)[o.session].(status := Revoked, revokedAt := Some(now))]
      ensures o.TokenExpired? ==> CurrentOf(old(sessions), o.session, t)
      ensures o.TokenExpired? ==> sessions == old(sessions)[o.session := old(sessions)[o.session].(status := Expired)]
      ensures o.Exchanged? || o.TokenExpired? || o.ReuseDetected? || (o == InvalidToken && sessions == old(sessions))
      ensures !o.Exchanged? ==> spent == old(spent) && owner == old(owner)
    {
      if sid :| sid in sessions && CurrentOf(sessions, sid, t) {
        assert forall j :: CurrentOf(sessions, j, t) ==> j == sid;
        var s := sessions[sid];
        if s.expiresAt <= now {
          sessions := sessions[sid := s.(status := Expired)];
          return TokenExpired(sid);
        }
        sessions := sessions[sid := Rotated(s, random)];
        owner := owner[random := sid];
        spent := spent + {t};
        return Exchanged(random, sid);
      }
      if sid :| sid in sessions && PreviousOf(sessions, sid, t) {
        sessions := sessions[sid := sessions[sid].(status := Revoked, revokedAt := Some(now))];
        return ReuseDetected(sid);
      }
      return InvalidToken;
    }

    /** Revoke the session whose current token this is, even when it already expired. */
    method Logout(t: Token, now: int) returns (o: Outcome)
      requires Valid()
      modifies this`sessions
      ensures Valid() && Onward()
      ensures o.LoggedOut? <==> exists sid :: Endable(old(sessions), sid, t)
      ensures if o.LoggedOut? then
                o.session in old(sessions) && old(sessions)[o.session].hash in Candidates(t)
                && sessions == old(sessions)[o.session := old(sessions)[o.session].(status := Revoked,
                    revokedAt := Some(now))]
              else o == NoSession && sessions == old(sessions)
    {
      if sid :| sid in sessions && Endable(sessions, sid, t) {
        sessions := sessions[sid := sessions[sid].(status := Revoked, revokedAt := Some(now))];
        return LoggedOut(sid);
      }
      return NoSession;
    }

    /** Revoke every live session of a person but one: none of the others is live any more, and
        nobody else's session, nor the excluded one, is touched. */
    method RevokeForPerson(person: nat, exclude: Option<SessionId>, now: int) returns (o: Outcome)
      requires Valid()
      modifies this`sessions
      ensures Valid() && Onward() && o == RevokedSome(|EndedBy(old(sessions), person, exclude)|)
      ensures sessions.Keys == old(sessions).Keys
      ensures forall sid :: sid in old(sessions) ==>
        if old(sessions)[sid].person == person && Some(sid) != exclude then !Live(sessions[sid])
        else sessions[sid] == old(sessions)[sid]
      ensures forall sid :: sid in old(sessions) && !Live(old(sessions)[sid]) ==> sessions[sid] == old(sessions)[sid]
      ensures forall sid :: sid in old(sessions) ==>
        sessions[sid] == if Ends(old(sessions)[sid], sid, person, exclude) then old(sessions)[sid].(status := Revoked,
            revokedAt := Some(now)) else old(sessions)[sid]
    {
      var ending := EndedBy(sessions, person, exclude);
      RevokeAll(ending, now);
      return RevokedSome(|ending|);
    }

    /** Revoke these sessions one after the other. */
    method RevokeAll(ending: set<SessionId>, now: int)
      requires ending <= sessions.Keys
      modifies this`sessions
      ensures sessions.Keys == old(sessions).Keys
      ensures forall sid :: sid in old(sessions) ==>
        sessions[sid] == if sid in ending then old(sessions)[sid].(status := Revoked, revokedAt := Some(now))
            else old(sessions)[sid]
    {
      var todo := ending;
      while todo != {}
        invariant todo <= ending && sessions.Keys == old(sessions).Keys
        invariant forall sid :: sid in old(sessions) ==>
          sessions[sid] == if sid in ending - todo then old(sessions)[sid].(status := Revoked, revokedAt := Some(now))
              else old(sessions)[sid]
      {
        var sid :| sid in todo;
        sessions := sessions[sid := sessions[sid].(status := Revoked, revokedAt := Some(now))];
        todo := todo - {sid};
      }
    }
  }

  predicate Ends(s: Session, sid: SessionId, person: nat, exclude: Option<SessionId>) {
    Live(s) && s.person == person && Some(sid) != exclude
  }

  /** The sessions that a password change of `person` ends. */
  function EndedBy(sessions: map<SessionId, Session>, person: nat, exclude: Option<SessionId>): set<SessionId> {
    set sid | sid in sessions && Ends(sessions[sid], sid, person, exclude)
  }

  // ------------------------------------------------------------------ whole runs

  /** One request, at time `now`; `random` is the token it may issue. */
  datatype Request =
    | Login(person: nat, now: int, ttl: nat, random: Token)
    | Exchange(token: Token, now: int, random: Token)
    | LogoutOf(token: Token, now: int)
    | PasswordChange(person: nat, exclude: Option<SessionId>, now: int)

  predicate Issues(r: Request) {
    r.Login? || r.Exchange?
  }

  /** Random tokens are new and never repeat. */
  ghost predicate FreshTokens(reqs: seq<Request>, owner: map<Token, SessionId>) {
    && (forall i :: 0 <= i < |reqs| && Issues(reqs[i]) ==> reqs[i].random !in owner)
    && (forall i, j :: 0 <= i < j < |reqs| && Issues(reqs[i]) && Issues(reqs[j]) ==> reqs[i].random != reqs[j].random)
  }

  /** Request `i` was a successful exchange of `t`. */
  predicate Spends(reqs: seq<Request>, outs: seq<Outcome>, i: int, t: Token) {
    0 <= i < |reqs| && i < |outs| && reqs[i].Exchange? && outs[i].Exchanged? && reqs[i].token == t
  }

  predicate Presents(r: Request, t: Token) {
    r.Exchange? && r.token == t
  }

  /** `o` hands out the token `t` for session `sid`. */
  predicate Gives(o: Outcome, t: Token, sid: SessionId) {
    (o.Issued? && o.token == t && o.session == sid) || (o.Exchanged? && o.renewed == t && o.session == sid)
  }

  /** `o` may have rotated or ended session `sid`. */
  predicate Touches(o: Outcome, sid: SessionId) {
    o.RevokedSome? || ((o.LoggedOut? || o.Exchanged? || o.TokenExpired? || o.ReuseDetected?) && o.session == sid)
  }

  /** No outcome strictly between `i` and `j` touched the session. */
  ghost predicate Quiet(outs: seq<Outcome>, sid: SessionId, i: int, j: int) {
    forall k :: 0 <= k < |outs| && i < k < j ==> !Touches(outs[k], sid)
  }

  /** Presenting the token just replaced is always caught, and presenting the token just handed
      out is always honoured, or answered as expired. */
  ghost predicate Answered(reqs: seq<Request>, outs: seq<Outcome>) {
    && |outs| <= |reqs|
    && (forall i, j, t ::
          Spends(reqs, outs, i, t) && i < j < |outs| && Presents(reqs[j], t) && Quiet(outs, outs[i].session, i, j) ==>
          outs[j] == ReuseDetected(outs[i].session))
    && (forall i, j, t, sid ::
          0 <= i < j < |outs| && Gives(outs[i], t, sid) && Presents(reqs[j], t) && Quiet(outs, sid, i, j) ==>
          outs[j] == Exchanged(reqs[j].random, sid) || outs[j] == TokenExpired(sid))
  }

  // The last exchange of a session left alone since is still what the tables show.
  ghost predicate InForce(sessions: map<SessionId, Session>, reqs: seq<Request>, outs: seq<Outcome>) {
    && (forall i, t :: Spends(reqs, outs, i, t) && Quiet(outs, outs[i].session, i, |outs|) ==>
          PreviousOf(sessions, outs[i].session, t))
    && (forall i, t, sid :: 0 <= i < |outs| && Gives(outs[i], t, sid) && Quiet(outs, sid, i, |outs|) ==>
          CurrentOf(sessions, sid, t))
  }

  /** The session was there before request `i`. */
  predicate Existed(start: set<SessionId>, outs: seq<Outcome>, i: int, sid: SessionId) {
    sid in start || exists m :: 0 <= m < i && m < |outs| && outs[m].Issued? && outs[m].session == sid
  }

  /** Request `i` ended session `sid`: by its own token, or as one of a person whose password changed. */
  predicate EndsAt(people: map<SessionId, Session>, start: set<SessionId>, reqs: seq<Request>, outs: seq<Outcome>,
      i: nat, sid: SessionId)
    requires i < |outs| <= |reqs|
  {
    || ((outs[i].LoggedOut? || outs[i].ReuseDetected? || outs[i].TokenExpired?) && outs[i].session == sid)
    || (reqs[i].PasswordChange? && Existed(start, outs, i, sid) && sid in people
        && people[sid].person == reqs[i].person && Some(sid) != reqs[i].exclude)
  }

  /** No token of a session that ended is exchanged afterwards. */
  ghost predicate Final(people: map<SessionId, Session>, start: set<SessionId>, reqs: seq<Request>,
      outs: seq<Outcome>)
    requires |outs| <= |reqs|
  {
    forall i, j, sid :: 0 <= i < j < |outs| && outs[j].Exchanged? && EndsAt(people, start, reqs, outs, i, sid) ==>
      outs[j].session != sid
  }

  // Sessions that ended are no longer live.
  ghost predicate Closed(sessions: map<SessionId, Session>, start: set<SessionId>, reqs: seq<Request>,
      outs: seq<Outcome>)
    requires |outs| <= |reqs|
  {
    && start <= sessions.Keys && (forall m :: 0 <= m < |outs| && outs[m].Issued? ==> outs[m].session in sessions)
    && (forall i, sid :: 0 <= i < |outs| && EndsAt(sessions, start, reqs, outs, i, sid) ==>
         sid in sessions && !Live(sessions[sid]))
  }

  // What is known of the requests served so far.
  ghost predicate Served(sessions: map<SessionId, Session>, owner: map<Token, SessionId>, spent: set<Token>,
      reqs: seq<Request>, outs: seq<Outcome>) {
    && |outs| <= |reqs|
    && (forall i, t :: Spends(reqs, outs, i, t) ==> t in spent && t in owner && owner[t] == outs[i].session)
    && (forall i :: 0 <= i < |outs| && outs[i].ReuseDetected? ==>
         outs[i].session in sessions && !Live(sessions[outs[i].session]))
    && (forall i, j, t :: Spends(reqs, outs, i, t) && Spends(reqs, outs, j, t) ==> i == j)
    && (forall i, j, t :: 0 <= i < j && Spends(reqs, outs, j, t) && outs[i].ReuseDetected? ==>
         outs[j].session != outs[i].session)
  }

  // What one request may do to the tables, apart from the details.
  ghost predicate Fits(r: Request, o: Outcome, s: map<SessionId, Session>, p: set<Token>, s': map<SessionId, Session>,
      o': map<Token, SessionId>, p': set<Token>) {
    && (r.Exchange? && o.Exchanged? ==>
          r.token !in p && r.token in p' && r.token in o' && o'[r.token] == o.session && o.session in s
              && Live(s[o.session]))
    && (o.LoggedOut? || o.ReuseDetected? || o.TokenExpired? ==> o.session in s' && !Live(s'[o.session]))
    && (o.Exchanged? ==> o.session in s && Live(s[o.session])) && (o.Issued? ==> o.session in s')
    && (r.PasswordChange? ==> forall sid :: sid in s && s[sid].person == r.person && Some(sid) != r.exclude ==>
         sid in s' && !Live(s'[sid]))
  }

  // What one request answers and leaves alone.
  ghost predicate Replies(r: Request, o: Outcome, s: map<SessionId, Session>, p: set<Token>,
      s': map<SessionId, Session>) {
    && (r.Exchange? && o.Exchanged? ==> PreviousOf(s', o.session, r.token))
    && (forall t, sid :: Gives(o, t, sid) ==> CurrentOf(s', sid, t))
    && (forall sid :: sid in s && !Touches(o, sid) ==> sid in s' && s'[sid] == s[sid])
    && (r.Exchange? ==> forall sid :: CurrentOf(s, sid, r.token) ==>
         o == Exchanged(r.random, sid) || o == TokenExpired(sid))
    && (r.Exchange? && r.token in p ==> forall sid :: PreviousOf(s, sid, r.token) ==> o == ReuseDetected(sid))
  }

  lemma OneSession(flow: AuthFlow, t: Token)
    requires flow.Valid()
    ensures forall sid, other :: PreviousOf(flow.sessions, sid, t) && PreviousOf(flow.sessions, other, t) ==>
      sid == other
    ensures forall sid, other :: CurrentOf(flow.sessions, sid, t) && CurrentOf(flow.sessions, other, t) ==> sid == other
    ensures t in flow.spent ==> forall sid :: !CurrentOf(flow.sessions, sid, t)
  {
  }

  // Refresh, with the facts that the run needs.
  method Present(flow: AuthFlow, t: Token, now: int, random: Token) returns (o: Outcome)
    requires flow.Valid() && random !in flow.owner
    modifies flow
    ensures flow.Valid() && flow.Onward()
    ensures flow.owner.Keys <= old(flow.owner).Keys + {random}
    ensures Fits(Exchange(t, now, random), o, old(flow.sessions), old(flow.spent), flow.sessions, flow.owner,
        flow.spent)
    ensures Replies(Exchange(t, now, random), o, old(flow.sessions), old(flow.spent), flow.sessions)
  {
    hide AuthFlow.Valid;
    OneSession(flow, t);
    o := flow.Refresh(t, now, random);
  }

  // RevokeForPerson, with the facts that the run needs.
  method ChangePassword(flow: AuthFlow, person: nat, exclude: Option<SessionId>, now: int) returns (o: Outcome)
    requires flow.Valid()
    modifies flow
    ensures flow.Valid() && flow.Onward() && flow.owner == old(flow.owner)
    ensures Fits(PasswordChange(person, exclude, now), o, old(flow.sessions), old(flow.spent), flow.sessions,
        flow.owner, flow.spent)
    ensures Replies(PasswordChange(person, exclude, now), o, old(flow.sessions), old(flow.spent), flow.sessions)
  {
    hide AuthFlow.Valid, EndedBy, Later, Ends;
    o := flow.RevokeForPerson(person, exclude, now);
  }

  method Serve(flow: AuthFlow, r: Request) returns (o: Outcome)
    requires flow.Valid() && (Issues(r) ==> r.random !in flow.owner)
    modifies flow
    ensures flow.Valid() && flow.Onward()
    ensures flow.owner.Keys <= old(flow.owner).Keys + if Issues(r) then {r.random} else {}
    ensures Fits(r, o, old(flow.sessions), old(flow.spent), flow.sessions, flow.owner, flow.spent)
    ensures Replies(r, o, old(flow.sessions), old(flow.spent), flow.sessions)
  {
    match r {
      case Login(person, now, ttl, random) => o := flow.IssueTokens(person, now, ttl, random);
      case Exchange(t, now, random) => o := Present(flow, t, now, random);
      case LogoutOf(t, now) => o := flow.Logout(t, now);
      case PasswordChange(person, exclude, now) => o := ChangePassword(flow, person, exclude, now);
    }
  }

  lemma ServedNext(reqs: seq<Request>, outs: seq<Outcome>, o: Outcome, s: map<SessionId, Session>,
      w: map<Token, SessionId>, p: set<Token>, s': map<SessionId, Session>, w': map<Token, SessionId>, p': set<Token>)
    requires Served(s, w, p, reqs, outs) && |outs| < |reqs| && Later(s, w, p, s', w', p')
    requires Fits(reqs[|outs|], o, s, p, s', w', p')
    ensures Served(s', w', p', reqs, outs + [o])
  {
    var all, k := outs + [o], |outs|;
    forall i, t | Spends(reqs, all, i, t) && i != k ensures Spends(reqs, outs, i, t) {}
    assert forall i :: 0 <= i < k ==> all[i] == outs[i];
  }

  lemma EarlierEnd(s: map<SessionId, Session>, w: map<Token, SessionId>, p: set<Token>, s': map<SessionId, Session>,
      w': map<Token, SessionId>, p': set<Token>, start: set<SessionId>, reqs: seq<Request>, outs: seq<Outcome>,
      o: Outcome, i: nat, sid: SessionId)
    requires i < |outs| < |reqs| && Later(s, w, p, s', w', p') && Closed(s, start, reqs, outs)
    requires EndsAt(s', start, reqs, outs + [o], i, sid)
    ensures EndsAt(s, start, reqs, outs, i, sid)
  {
    var all := outs + [o];
    assert forall m :: 0 <= m < |outs| ==> all[m] == outs[m];
    if reqs[i].PasswordChange? && Existed(start, all, i, sid) {
      assert Existed(start, outs, i, sid);
      assert sid in s;
    }
  }

  lemma ClosedNext(start: set<SessionId>, reqs: seq<Request>, outs: seq<Outcome>, o: Outcome,
      s: map<SessionId, Session>, w: map<Token, SessionId>, p: set<Token>, s': map<SessionId, Session>,
      w': map<Token, SessionId>, p': set<Token>)
    requires |outs| < |reqs| && Later(s, w, p, s', w', p') && Fits(reqs[|outs|], o, s, p, s', w', p')
    requires Closed(s, start, reqs, outs) && Final(s, start, reqs, outs)
    ensures Closed(s', start, reqs, outs + [o]) && Final(s', start, reqs, outs + [o])
  {
    var all, k := outs + [o], |outs|;
    assert all[k] == o && forall m :: 0 <= m < k ==> all[m] == outs[m];
    forall i, sid | 0 <= i <= k && EndsAt(s', start, reqs, all, i, sid) ensures sid in s' && !Live(s'[sid]) {
      if i < k {
        EarlierEnd(s, w, p, s', w', p', start, reqs, outs, o, i, sid);
      } else if reqs[k].PasswordChange? && Existed(start, all, k, sid) {
        assert sid in s;
      }
    }
    forall i, j, sid | 0 <= i < j <= k && all[j].Exchanged? && EndsAt(s', start, reqs, all, i, sid)
      ensures all[j].session != sid
    {
      EarlierEnd(s, w, p, s', w', p', start, reqs, outs, o, i, sid);
    }
  }

  lemma InForceNext(reqs: seq<Request>, outs: seq<Outcome>, o: Outcome, s: map<SessionId, Session>, p: set<Token>,
      s': map<SessionId, Session>)
    requires InForce(s, reqs, outs) && |outs| < |reqs| && Replies(reqs[|outs|], o, s, p, s')
    ensures InForce(s', reqs, outs + [o])
  {
    var all, k := outs + [o], |outs|;
    assert all[k] == o && forall i :: 0 <= i < k ==> all[i] == outs[i];
    forall i, sid | 0 <= i < k && Quiet(all, sid, i, k + 1) ensures Quiet(outs, sid, i, k) && !Touches(o, sid) {
      assert Quiet(outs, sid, i, k) by {
        forall x | 0 <= x < k && i < x < k ensures !Touches(outs[x], sid) { assert !Touches(all[x], sid); }
      }
      assert !Touches(all[k], sid);
    }
    forall i, t | Spends(reqs, all, i, t) && Quiet(all, all[i].session, i, k + 1)
      ensures PreviousOf(s', all[i].session, t)
    {
      if i < k { assert Spends(reqs, outs, i, t) && Quiet(outs, outs[i].session, i, k); }
    }
    forall i, t, sid | 0 <= i < k + 1 && Gives(all[i], t, sid) && Quiet(all, sid, i, k + 1)
      ensures CurrentOf(s', sid, t)
    {
      if i < k {
        assert Gives(outs[i], t, sid) && Quiet(outs, sid, i, k);
        assert CurrentOf(s, sid, t) && s'[sid] == s[sid];
      } else {
        assert Gives(o, t, sid);
      }
    }
  }

  lemma AnsweredNext(reqs: seq<Request>, outs: seq<Outcome>, o: Outcome, s: map<SessionId, Session>,
      w: map<Token, SessionId>, p: set<Token>, s': map<SessionId, Session>)
    requires Served(s, w, p, reqs, outs) && InForce(s, reqs, outs) && Answered(reqs, outs) && |outs| < |reqs|
    requires Replies(reqs[|outs|], o, s, p, s')
    ensures Answered(reqs, outs + [o])
  {
    var all, k := outs + [o], |outs|;
    assert all[k] == o && forall i :: 0 <= i < k ==> all[i] == outs[i];
    forall i, j, sid | 0 <= i < j <= k && Quiet(all, sid, i, j) ensures Quiet(outs, sid, i, j) {
      forall x | 0 <= x < k && i < x < j ensures !Touches(outs[x], sid) { assert !Touches(all[x], sid); }
    }
    forall i, j, t | Spends(reqs, all, i, t) && i < j <= k && Presents(reqs[j], t) && Quiet(all, all[i].session, i, j)
      ensures all[j] == ReuseDetected(all[i].session)
    {
      assert Spends(reqs, outs, i, t) && Quiet(outs, outs[i].session, i, j);
    }
    forall i, j, t, sid | 0 <= i < j <= k && Gives(all[i], t, sid) && Presents(reqs[j], t) && Quiet(all, sid, i, j)
      ensures all[j] == Exchanged(reqs[j].random, sid) || all[j] == TokenExpired(sid)
    {
      assert Gives(outs[i], t, sid) && Quiet(outs, sid, i, j);
    }
  }

  /** Over every run of logins, exchanges, logouts and password changes, each token is exchanged
      successfully at most once, and once the token just replaced is presented again, no token
      ever issued for that session is accepted any more; nor is one of a session that was logged
      out, expired, or ended by a password change. `Answered` says what is accepted and what is
      caught. */
  method RunRequests(flow: AuthFlow, reqs: seq<Request>) returns (outs: seq<Outcome>)
    requires flow.Valid() && FreshTokens(reqs, flow.owner)
    modifies flow
    ensures flow.Valid() && |outs| == |reqs|
    ensures forall i, j, t :: Spends(reqs, outs, i, t) && Spends(reqs, outs, j, t) ==> i == j
    ensures forall i, j, t :: 0 <= i < j && Spends(reqs, outs, j, t) && outs[i].ReuseDetected? ==>
      t in flow.owner && flow.owner[t] != outs[i].session
    ensures Answered(reqs, outs) && Final(flow.sessions, old(flow.sessions).Keys, reqs, outs)
  {
    outs := [];
    ghost var start := flow.sessions.Keys;
    for k := 0 to |reqs|
      invariant flow.Valid() && |outs| == k && Served(flow.sessions, flow.owner, flow.spent, reqs, outs)
      invariant InForce(flow.sessions, reqs, outs) && Answered(reqs, outs)
      invariant Closed(flow.sessions, start, reqs, outs) && Final(flow.sessions, start, reqs, outs)
      invariant forall i :: k <= i < |reqs| && Issues(reqs[i]) ==> reqs[i].random !in flow.owner
    {
      ghost var s, w, p := flow.sessions, flow.owner, flow.spent;
      var o := Serve(flow, reqs[k]);
      AnsweredNext(reqs, outs, o, s, w, p, flow.sessions);
      InForceNext(reqs, outs, o, s, p, flow.sessions);
      ServedNext(reqs, outs, o, s, w, p, flow.sessions, flow.owner, flow.spent);
      ClosedNext(start, reqs, outs, o, s, w, p, flow.sessions, flow.owner, flow.spent);
      outs := outs + [o];
    }
  }
}
