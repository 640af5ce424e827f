/** What logins, registrations, logouts and direct messages do to who is connected as whom. */
module Accounts {
  import opened Names
  import opened Protocol
  import opened Friends
  import opened Listing
  import opened Server
  import opened Invariants
  import opened Traffic
  import opened FriendView

  /** The sessions after a login: only connection `i` carries the user. */
  lemma TakenOver(sessions: seq<Session>, users: seq<UserRow>, i: nat, user: int, name: string, k: nat)
    requires SessionsOk(sessions, users) && i < |sessions| && k < |sessions|
    ensures var r := Revoked(sessions, sessions[i].fd, user);
            var after := r[i := r[i].LoggedIn(user, name)];
            after[k].fd == sessions[k].fd && (after[k].authenticated && after[k].id == user <==> k == i)
  {
    assert sessions[k] in sessions;
    var differ := SessionsDiffer(sessions[i], sessions[k]) || SessionsDiffer(sessions[k], sessions[i]);
  }

  /**
   After a login the user is live on the connection that logged in and on no other; a login with an unknown
   name or a wrong password changes nothing and is answered on its own connection.
   */
  lemma LoginTakesOver(s: State, i: nat, name: string, hashOk: bool, fd: int)
    requires Good(s) && i < |s.sessions|
    ensures var s' := Login(s, i, name, hashOk);
            if hashOk && NameTaken(s.users, name) then LiveAs(s', fd, IdOf(s.users, name)) <==> fd == s.sessions[i].fd
            else s' == s.(sent := s'.sent) && |s'.sent| == |s.sent| + 1 && s'.sent[|s.sent|].fd == s.sessions[i].fd
  {
    if hashOk && NameTaken(s.users, name) {
      var user, s' := IdOf(s.users, name), Login(s, i, name, true);
      LoginSessions(s, i, name);
      forall k | 0 <= k < |s.sessions|
        ensures s'.sessions[k].fd == s.sessions[k].fd && (s'.sessions[k].authenticated && s'.sessions[k].id == user <==> k == i)
      {
        TakenOver(s.sessions, s.users, i, user, name, k);
      }
      hide Login, Revoked, Good;
      TakenOver(s.sessions, s.users, i, user, name, i);
    }
  }

  /** Another record of another user is as it was, before or after. */
  lemma LoginSparesRecord(s: State, i: nat, name: string, k: nat)
    requires i < |s.sessions| && NameTaken(s.users, name) && k < |s.sessions| && s.sessions[k].fd != s.sessions[i].fd
    ensures var s' := Login(s, i, name, true);
            && |s'.sessions| == |s.sessions|
            && s'.sessions[k] == if IsRevoked(s.sessions[k], s.sessions[i].fd, IdOf(s.users, name)) then s.sessions[k].Cleared() else s.sessions[k]
  {
    LoginSessions(s, i, name);
    hide Login, NameTaken, IdOf, IsRevoked;
  }

  /** Everybody else stays logged in, except whoever used that connection before. */
  lemma LoginSparesOthers(s: State, i: nat, name: string, fd: int, other: int)
    requires Good(s) && i < |s.sessions| && NameTaken(s.users, name) && other != IdOf(s.users, name) && fd != s.sessions[i].fd
    ensures LiveAs(Login(s, i, name, true), fd, other) <==> LiveAs(s, fd, other)
  {
    hide Login, Good, NameTaken, IdOf;
    var s' := Login(s, i, name, true);
    LoginKeepsCount(s, i, name);
    forall k | 0 <= k < |s.sessions| && (s.sessions[k].fd == fd || s'.sessions[k].fd == fd)
      ensures s'.sessions[k].fd == s.sessions[k].fd
      ensures s'.sessions[k].authenticated && s'.sessions[k].id == other <==> s.sessions[k].authenticated && s.sessions[k].id == other
    {
      LoginSparesRecord(s, i, name, k);
    }
  }

  lemma LoginKeepsCount(s: State, i: nat, name: string)
    requires i < |s.sessions| && NameTaken(s.users, name)
    ensures var s' := Login(s, i, name, true);
            |s'.sessions| == |s.sessions| && forall k :: 0 <= k < |s.sessions| ==> s'.sessions[k].fd == s.sessions[k].fd
  {
    LoginSessions(s, i, name);
    hide Login, NameTaken, IdOf, IsRevoked;
  }

  /** A registration makes a user that did not exist, live on that connection only; a taken name changes nothing. */
  lemma RegistrationSignsIn(s: State, i: nat, name: string, fd: int)
    requires Good(s) && i < |s.sessions|
    ensures var s', id := Register(s, i, name, true), NextId(s.Ids());
            if NameTaken(s.users, name) then s' == s.(sent := s'.sent)
            else id !in s.Ids() && s'.users == s.users + [UserRow(id, name, "")] && (LiveAs(s', fd, id) <==> fd == s.sessions[i].fd)
  {
    hide NotifyUsers;
    var s', id := Register(s, i, name, true), NextId(s.Ids());
    if !NameTaken(s.users, name) {
      forall k | 0 <= k < |s.sessions| ensures s.sessions[k].authenticated ==> s.sessions[k].id != id {
        assert s.sessions[k] in s.sessions;
      }
      assert s'.sessions[i].fd == s.sessions[i].fd;
    }
  }

  /** A logout ends whatever was live on its connection and nothing else; its user is then offline. */
  lemma LogoutSignsOut(s: State, i: nat, fd: int, user: int)
    requires Good(s) && i < |s.sessions| && s.sessions[i].authenticated
    ensures LiveAs(Logout(s, i), fd, user) <==> LiveAs(s, fd, user) && fd != s.sessions[i].fd
    ensures !Online(Logout(s, i).sessions, s.sessions[i].id)
  {
    var s', c := Logout(s, i), s.sessions[i];
    LoggedOutSessions(s, i);
    hide Logout, Pairwise;
    if LiveAs(s, fd, user) && fd != c.fd {
      var k :| 0 <= k < |s.sessions| && s.sessions[k].fd == fd && s.sessions[k].authenticated && s.sessions[k].id == user;
      assert s'.sessions[k] == s.sessions[k];
    }
    if LiveAs(s', fd, user) {
      var k :| 0 <= k < |s'.sessions| && s'.sessions[k].fd == fd && s'.sessions[k].authenticated && s'.sessions[k].id == user;
      OthersDiffer(s.sessions, s.users, i, k);
      assert s'.sessions[k] == s.sessions[k];
    }
    forall k | 0 <= k < |s.sessions| ensures !s'.sessions[k].Is(c.id) {
      OthersDiffer(s.sessions, s.users, i, k);
    }
  }

  lemma OthersDiffer(sessions: seq<Session>, users: seq<UserRow>, i: nat, k: nat)
    requires SessionsOk(sessions, users) && i < |sessions| && k < |sessions|
    ensures k != i ==> SessionsDiffer(sessions[k], sessions[i])
  {
    var differ := SessionsDiffer(sessions[i], sessions[k]) || SessionsDiffer(sessions[k], sessions[i]);
  }

  lemma LoggedOutSessions(s: State, i: nat)
    requires i < |s.sessions| && s.sessions[i].authenticated
    ensures Logout(s, i).sessions == s.sessions[i := s.sessions[i].Cleared()]
  {}

  /** Connections have positive descriptors; their ids are those of users, or 0 where nobody is logged in. */
  lemma SessionIds(s: State)
    requires Good(s)
    ensures forall k :: 0 <= k < |s.sessions| ==>
              var c := s.sessions[k];
              c.fd > 0 && if c.authenticated then c.id > 0 && c.id in s.Ids() else c.id == 0
    ensures forall id :: id in s.Ids() ==> id > 0
  {
    UserIdIn(s.users);
    forall k | 0 <= k < |s.sessions| ensures SessionOk(s.sessions[k], s.users) {
      assert s.sessions[k] in s.sessions;
    }
  }

  /** The first connection that nobody is logged in on. */
  predicate FirstStranger(sessions: seq<Session>, k: nat) {
    k < |sessions| && !sessions[k].authenticated && forall j :: 0 <= j < k ==> sessions[j].authenticated
  }

  /**
   A direct message to a user goes to the user's one live connection, under the id of the sender's session,
   or to nobody if the user is offline; one to the id 0, which stands for no user, goes to the first
   connection that nobody is logged in on.  It is stored exactly when both ends are users.
   */
  lemma DmReachesRecipient(s: State, i: nat, p: Packet, fd: int, stranger: nat)
    requires Good(s) && i < |s.sessions| && p.payload.Dm? && p.payload.action == DM_MESSAGE
    ensures var s', c, user := HandleDm(s, i, p), s.sessions[i], p.payload.recipient;
            && (LiveAs(s, fd, user) ==> s'.sent == s.sent + [Sent(fd, p.(sender := c.id))])
            && (!Online(s.sessions, user) && user != 0 ==> s'.sent == s.sent)
            && (user == 0 && FirstStranger(s.sessions, stranger) ==>
                  s'.sent == s.sent + [Sent(s.sessions[stranger].fd, p.(sender := c.id))])
            && (user == 0 && (forall k :: 0 <= k < |s.sessions| ==> s.sessions[k].authenticated) ==> s'.sent == s.sent)
            && (if c.authenticated && user in s.Ids()
                then |s'.dms| == |s.dms| + 1 && s'.dms[..|s.dms|] == s.dms
                     && s'.dms[|s.dms|].sender == c.id && s'.dms[|s.dms|].receiver == user && s'.dms[|s.dms|].text == p.payload.text
                     && forall m :: m in s.dms ==> m.id < s'.dms[|s.dms|].id
                else s'.dms == s.dms)
  {
    DmIsStored(s, i, p);
    var user := p.payload.recipient;
    SessionIds(s);
    if user > 0 {
      FirstMatchIsOnlyMatch(s, user);
    }
    if LiveAs(s, fd, user) {
      var k :| 0 <= k < |s.sessions| && s.sessions[k].fd == fd && s.sessions[k].authenticated && s.sessions[k].id == user;
      assert s.sessions[k].Is(user);
    }
    hide Good, NextId, UserIds;
  }

  lemma DmIsStored(s: State, i: nat, p: Packet)
    requires Good(s) && i < |s.sessions| && p.payload.Dm? && p.payload.action == DM_MESSAGE
    ensures var s', c, user := HandleDm(s, i, p), s.sessions[i], p.payload.recipient;
            if c.authenticated && user in s.Ids()
            then |s'.dms| == |s.dms| + 1 && s'.dms[..|s.dms|] == s.dms
                 && s'.dms[|s.dms|].sender == c.id && s'.dms[|s.dms|].receiver == user && s'.dms[|s.dms|].text == p.payload.text
                 && forall m :: m in s.dms ==> m.id < s'.dms[|s.dms|].id
            else s'.dms == s.dms
  {
    SessionIds(s);
    hide Good, UserIds;
    forall m | m in s.dms ensures m.id < NextId(DmIds(s.dms)) {
      var k :| 0 <= k < |s.dms| && s.dms[k] == m;
      assert DmIds(s.dms)[k] == m.id;
      assert m.id in DmIds(s.dms);
    }
  }

  /** The last packet that an account request sends is its answer, on its own connection. */
  ghost predicate Answers(s: State, s': State, i: nat, action: int, status: int)
    requires i < |s.sessions|
  {
    && |s.sent| < |s'.sent|
    && var o := s'.sent[|s'.sent| - 1];
      o.Sent? && o.fd == s.sessions[i].fd && o.packet.payload.Auth? && o.packet.payload.action == action && o.packet.payload.status == status
  }

  /**
   Answers tell the truth: a login is answered OK exactly when the connection is live as the named user
   afterwards by it, a registration exactly when it made the user, a logout exactly when there was someone to log out.
   */
  lemma AnswersTellTheTruth(s: State, i: nat, p: Packet, hashOk: bool)
    requires Good(s) && i < |s.sessions| && p.payload.Auth?
    ensures var s', c, action, name := HandleAuth(s, i, p, hashOk), s.sessions[i], p.payload.action, p.payload.username;
            && (action == AUTH_LOGIN ==> exists status :: Answers(s, s', i, action, status) && (status == RESP_OK <==> hashOk && NameTaken(s.users, name)))
            && (action == AUTH_REGISTER ==> exists status :: Answers(s, s', i, action, status) && (status == RESP_OK <==> |s'.users| == |s.users| + 1))
            && (action == AUTH_LOGOUT ==> Answers(s, s', i, action, if c.authenticated then RESP_DONE else RESP_ERR_UNAUTHORIZED))
            && (!(action in [AUTH_LOGIN, AUTH_REGISTER, AUTH_LOGOUT]) ==> s' == s)
  {
    var action, name, s' := p.payload.action, p.payload.username, HandleAuth(s, i, p, hashOk);
    hide NameTaken, Good, Register, Login, Logout, Answers;
    if action == AUTH_LOGIN {
      var status := if !NameTaken(s.users, name) then 1 else if !hashOk then RESP_ERR_INVALID else RESP_OK;
      LoginIsAnswered(s, i, name, hashOk);
      assert Answers(s, s', i, action, status);
    } else if action == AUTH_REGISTER {
      var status := if !hashOk then 1 else if NameTaken(s.users, name) then RESP_ERR_CONFLICT else RESP_OK;
      RegistrationIsAnswered(s, i, name, hashOk);
      assert Answers(s, s', i, action, status);
    } else if action == AUTH_LOGOUT {
      LogoutIsAnswered(s, i);
    }
  }

  lemma RegistrationIsAnswered(s: State, i: nat, name: string, hashOk: bool)
    requires i < |s.sessions|
    ensures var s' := Register(s, i, name, hashOk);
            && Answers(s, s', i, AUTH_REGISTER, if !hashOk then 1 else if NameTaken(s.users, name) then RESP_ERR_CONFLICT else RESP_OK)
            && |s'.users| == |s.users| + if hashOk && !NameTaken(s.users, name) then 1 else 0
  {
    hide NotifyUsers, NameTaken, NextId;
  }

  lemma LoginIsAnswered(s: State, i: nat, name: string, hashOk: bool)
    requires i < |s.sessions|
    ensures Answers(s, Login(s, i, name, hashOk), i, AUTH_LOGIN,
                    if !NameTaken(s.users, name) then 1 else if !hashOk then RESP_ERR_INVALID else RESP_OK)
  {
    hide Announce, NameTaken, IdOf, RevokeOuts;
    var fd, user := s.sessions[i].fd, IdOf(s.users, name);
    var s1 := s.SendAll(RevokeOuts(s.sessions, fd, user, name, |s.sessions|)).(sessions := Revoked(s.sessions, fd, user));
    AnnounceOuts(s1.(sessions := s1.sessions[i := s1.sessions[i].LoggedIn(user, name)]), user);
  }

  lemma LogoutIsAnswered(s: State, i: nat)
    requires i < |s.sessions|
    ensures Answers(s, Logout(s, i), i, AUTH_LOGOUT, if s.sessions[i].authenticated then RESP_DONE else RESP_ERR_UNAUTHORIZED)
  {
    hide Announce;
    AnnounceOuts(s.(sessions := s.sessions[i := s.sessions[i].Cleared()]), s.sessions[i].id);
  }
}
