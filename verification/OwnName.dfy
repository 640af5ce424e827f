/**
 Names over whole runs: users keep their ids and names; the server answers the logins of a connection one
 by one, so that a client which is logged in knows its own name exactly if its form held it long enough.
 */
module OwnName {
  import opened Names
  import opened Protocol
  import opened Friends
  import Store
  import opened Listing
  import opened ClientView
  import opened Server
  import opened Invariants
  import opened Traffic
  import opened FriendView
  import opened Accounts
  import opened LoginForm

  // ------------------------------------------------------------ users

  /** Users stay, under their ids and names. */
  ghost predicate UsersStay(users: seq<UserRow>, users': seq<UserRow>) {
    forall id :: id in UserIds(users) ==> id in UserIds(users') && NameOf(users', id) == NameOf(users, id)
  }

  lemma StepKeepsUsers(s: State, e: Event)
    requires Good(s) && Enabled(s, e)
    ensures UsersStay(s.users, Step(s, e).users)
  {
    hide Good, HandleAuth, HandleDm, HandleServer, HandleChannel, HandleSocial, NotifyJoined, NotifyUsers, JoinedServers, UserIds, NameOf;
    if e.Request? {
      var p := e.packet;
      match p.payload
      case Auth(_, _, _, _) => AuthKeepsUsers(s, e.i, p, e.hashOk);
      case Dm(_, _, _, _, _) => DmAside(s, e.i, p);
      case Server(_, _, _, _, _, _) => ServerAside(s, e.i, p);
      case Channel(_, _, _, _, _, _, _) => ChannelAside(s, e.i, p);
      case Social(_, _, _, _, _, _) => SocialKeepsUsers(s, e.i, p);
    }
  }

  lemma AuthKeepsUsers(s: State, i: nat, p: Packet, hashOk: bool)
    requires Good(s) && i < |s.sessions| && p.payload.Auth?
    ensures UsersStay(s.users, HandleAuth(s, i, p, hashOk).users)
  {
    hide NotifyJoined, NotifyUsers, JoinedServers, RevokeOuts, NextId;
    var u := UserRow(NextId(s.Ids()), p.payload.username, "");
    UserIdsAppend(s.users, u);
    forall id | id in s.Ids() ensures NameOf(s.users + [u], id) == NameOf(s.users, id) {
      NameOfAppend(s.users, u, id);
    }
    hide UserIds, NameOf, Good;
  }

  lemma SocialKeepsUsers(s: State, i: nat, p: Packet)
    requires i < |s.sessions| && p.payload.Social?
    ensures UsersStay(s.users, HandleSocial(s, i, p).users)
    ensures HandleSocial(s, i, p).sessions == s.sessions
  {
    hide NotifyFriends, Perform, FriendListing, UserListStream, ToSessions;
    var user, profile := s.sessions[i].id, p.payload.profile;
    forall id ensures UserIds(WithProfile(s.users, user, profile)) == s.Ids()
              ensures NameOf(WithProfile(s.users, user, profile), id) == NameOf(s.users, id)
    {
      ProfileKeepsNames(s.users, user, profile, id);
    }
    hide UserIds, NameOf, WithProfile;
  }

  lemma {:induction false} RunKeepsUsers(s: State, es: seq<Event>)
    requires Good(s) && Runs(s, es)
    ensures UsersStay(s.users, Run(s, es).users)
    decreases |es|
  {
    hide Good, Step;
    if es != [] {
      StepKeepsUsers(s, es[0]);
      StepKeepsGood(s, es[0]);
      RunKeepsUsers(Step(s, es[0]), es[1..]);
    }
  }

  // ------------------------------------------------------------ what a client is told about its account

  function StandingOn(sent: seq<Out>, fd: int): (t: Standing)
    ensures -1 <= t.inForce < t.answers && t.welcomes <= t.answers
  {
    StandingOf(PacketsOn(sent, fd))
  }

  lemma StandingOnAppend(sent: seq<Out>, o: Out, fd: int)
    ensures StandingOn(sent + [o], fd)
            == if o.fd != fd then StandingOn(sent, fd)
               else if o.Opened? then Standing(0, 0, -1) else Told(StandingOn(sent, fd), o.packet)
  {
    PacketsOnAppend(sent, o, fd);
    if o.fd == fd && o.Sent? {
      StandingAppend(PacketsOn(sent, fd), o.packet);
    }
  }

  /** The log goes on without telling the client behind `fd` anything about its account. */
  ghost predicate KeepsMe(a: seq<Out>, b: seq<Out>, fd: int) {
    a <= b && forall k :: |a| <= k < |b| && b[k].fd == fd ==> b[k].Sent? && !b[k].packet.payload.Auth?
  }

  lemma {:induction false} KeptMe(a: seq<Out>, b: seq<Out>, fd: int)
    requires KeepsMe(a, b, fd)
    ensures StandingOn(b, fd) == StandingOn(a, fd)
    decreases |b|
  {
    hide StandingOn;
    if |a| < |b| {
      var front, last := b[..|b| - 1], b[|b| - 1];
      KeptMe(a, front, fd);
      StandingOnAppend(front, last, fd);
      assert b == front + [last];
    } else {
      assert a == b;
    }
  }

  /** The log goes on without an answer to a login or registration for the client behind `fd`. */
  ghost predicate KeepsAnswers(a: seq<Out>, b: seq<Out>, fd: int) {
    a <= b && forall k :: |a| <= k < |b| && b[k].fd == fd ==> b[k].Sent? && !IsLoginAnswer(b[k].packet)
  }

  lemma {:induction false} KeptAnswers(a: seq<Out>, b: seq<Out>, fd: int)
    requires KeepsAnswers(a, b, fd)
    ensures StandingOn(b, fd).answers == StandingOn(a, fd).answers
    decreases |b|
  {
    hide StandingOn;
    if |a| < |b| {
      var front, last := b[..|b| - 1], b[|b| - 1];
      KeptAnswers(a, front, fd);
      StandingOnAppend(front, last, fd);
      assert b == front + [last];
    } else {
      assert a == b;
    }
  }

  lemma KeepsMeAppend(a: seq<Out>, outs: seq<Out>, fd: int)
    requires forall o :: o in outs && o.fd == fd ==> o.Sent? && !o.packet.payload.Auth?
    ensures KeepsMe(a, a + outs, fd)
  {}

  lemma AsideKeepsMe(a: seq<Out>, b: seq<Out>, kind: Kind, fd: int)
    requires AsideLog(a, b, kind) && !kind.Accounts?
    ensures KeepsMe(a, b, fd)
  {}

  lemma AnnounceKeepsMe(s: State, user: int, fd: int)
    ensures KeepsMe(s.sent, Announce(s, user).sent, fd)
  {
    AnnounceOuts(s, user);
    hide Announce;
  }

  // ------------------------------------------------------------ the logins that the server took in

  predicate IsLoginRequest(p: Packet) {
    p.payload.Auth? && (p.payload.action == AUTH_LOGIN || p.payload.action == AUTH_REGISTER)
  }

  /** The names in the logins and registrations taken in from `fd` since it was opened, after one more event. */
  function Noted(s: State, e: Event, fd: int, book: seq<string>): seq<string>
    requires Enabled(s, e)
  {
    if e == Accept(fd) && |s.sessions| < MAX_CLIENTS then []
    else if e.Request? && s.sessions[e.i].fd == fd && IsLoginRequest(e.packet) then book + [e.packet.payload.username]
    else book
  }

  function Logins(s: State, es: seq<Event>, fd: int, book: seq<string>): seq<string>
    requires Runs(s, es)
    decreases |es|
  {
    if es == [] then book else Logins(Step(s, es[0]), es[1..], fd, Noted(s, es[0], fd, book))
  }

  /**
   Every login taken in has had its answer, and if the connection is logged in, it is as the user named in
   the login whose answer is in force.
   */
  ghost predicate BookOk(s: State, fd: int, book: seq<string>) {
    var t := StandingOn(s.sent, fd);
    t.answers == |book| && forall user :: LiveAs(s, fd, user) ==> t.inForce >= 0 && book[t.inForce] == NameOf(s.users, user)
  }

  /** Whoever is live behind `fd` was so before, under the same name. */
  ghost predicate StillLive(s: State, s': State, fd: int) {
    forall user :: LiveAs(s', fd, user) ==> LiveAs(s, fd, user) && NameOf(s'.users, user) == NameOf(s.users, user)
  }

  lemma SameBook(s: State, s': State, fd: int, book: seq<string>)
    requires BookOk(s, fd, book) && StillLive(s, s', fd) && KeepsMe(s.sent, s'.sent, fd)
    ensures BookOk(s', fd, book)
  {
    KeptMe(s.sent, s'.sent, fd);
    hide StandingOn, LiveAs, NameOf;
  }

  // ------------------------------------------------------------ registration

  lemma RegisteredNames(s: State, i: nat, name: string, fd: int, user: int)
    requires Good(s) && i < |s.sessions| && !NameTaken(s.users, name) && LiveAs(Register(s, i, name, true), fd, user)
    ensures var s' := Register(s, i, name, true);
            if fd == s.sessions[i].fd then NameOf(s'.users, user) == name
            else LiveAs(s, fd, user) && NameOf(s'.users, user) == NameOf(s.users, user)
  {
    hide NotifyUsers, NameOf, UserIds;
    var s', u := Register(s, i, name, true), UserRow(NextId(s.Ids()), name, "");
    var k :| 0 <= k < |s'.sessions| && s'.sessions[k].fd == fd && s'.sessions[k].authenticated && s'.sessions[k].id == user;
    NameOfAppend(s.users, u, user);
    if fd == s.sessions[i].fd {
      OneConnectionPerSocket(s.sessions, s.users, k, i);
    } else {
      assert s.sessions[k] == s'.sessions[k];
      LiveIds(s, fd, user);
    }
  }

  function RegisterStatus(s: State, name: string, hashOk: bool): int {
    if !hashOk then 1 else if NameTaken(s.users, name) then RESP_ERR_CONFLICT else RESP_OK
  }

  /** A registration is answered on its own connection, and nobody else is told anything about an account. */
  lemma RegisterTells(s: State, i: nat, name: string, hashOk: bool, fd: int)
    requires i < |s.sessions|
    ensures var t, t' := StandingOn(s.sent, fd), StandingOn(Register(s, i, name, hashOk).sent, fd);
            t' == if fd == s.sessions[i].fd then Told(t, AuthReply(AUTH_REGISTER, RegisterStatus(s, name, hashOk), "")) else t
  {
    hide NotifyUsers, StandingOn, NameTaken, Told;
    var s', dest := Register(s, i, name, hashOk), s.sessions[i].fd;
    var outs := if hashOk && !NameTaken(s.users, name) then NotifyUsers(s'.sessions, s'.users, |s'.sessions|) else [];
    UserPushes(s'.sessions, s'.users, |s'.sessions|);
    KeepsMeAppend(s.sent, outs, fd);
    KeptMe(s.sent, s.sent + outs, fd);
    assert s.sent + [] == s.sent;
    StandingOnAppend(s.sent + outs, Sent(dest, AuthReply(AUTH_REGISTER, RegisterStatus(s, name, hashOk), "")), fd);
  }

  /** What an answer to a login or registration does to a standing. */
  lemma ReplyTold(t: Standing, action: int, status: int, name: string)
    requires action == AUTH_LOGIN || action == AUTH_REGISTER
    ensures Told(t, AuthReply(action, status, name))
            == if status == RESP_OK then Standing(t.answers + 1, t.welcomes + 1, t.answers) else t.(answers := t.answers + 1)
  {}

  lemma RefusedRegistration(s: State, i: nat, name: string, hashOk: bool)
    requires i < |s.sessions| && !(hashOk && !NameTaken(s.users, name))
    ensures Register(s, i, name, hashOk) == s.(sent := Register(s, i, name, hashOk).sent) && RegisterStatus(s, name, hashOk) != RESP_OK
  {
    hide NameTaken;
  }

  lemma RegisterKeepsBook(s: State, i: nat, name: string, hashOk: bool, fd: int, book: seq<string>)
    requires Good(s) && i < |s.sessions| && BookOk(s, fd, book)
    ensures BookOk(Register(s, i, name, hashOk), fd, if fd == s.sessions[i].fd then book + [name] else book)
  {
    hide Register, StandingOn, NameOf, Good, LiveAs, Told, NameTaken;
    var s' := Register(s, i, name, hashOk);
    RegisterTells(s, i, name, hashOk, fd);
    ReplyTold(StandingOn(s.sent, fd), AUTH_REGISTER, RegisterStatus(s, name, hashOk), "");
    if hashOk && !NameTaken(s.users, name) {
      forall user | LiveAs(s', fd, user)
        ensures StandingOn(s'.sent, fd).inForce >= 0
        ensures (if fd == s.sessions[i].fd then book + [name] else book)[StandingOn(s'.sent, fd).inForce] == NameOf(s'.users, user)
      {
        RegisteredNames(s, i, name, fd, user);
      }
    } else {
      RefusedRegistration(s, i, name, hashOk);
      SameLive(s, s', fd);
    }
  }

  lemma SameLive(s: State, s': State, fd: int)
    requires s'.sessions == s.sessions
    ensures forall user :: LiveAs(s', fd, user) <==> LiveAs(s, fd, user)
  {}

  // ------------------------------------------------------------ login

  lemma LoggedInNames(s: State, i: nat, name: string, fd: int, user: int)
    requires Good(s) && i < |s.sessions| && NameTaken(s.users, name) && LiveAs(Login(s, i, name, true), fd, user)
    ensures if fd == s.sessions[i].fd then NameOf(s.users, user) == name else LiveAs(s, fd, user)
  {
    hide Login, NameTaken, IdOf, NameOf;
    var id, s' := IdOf(s.users, name), Login(s, i, name, true);
    LookupIsExact(s.users, name);
    LoginTakesOver(s, i, name, true, fd);
    if fd == s.sessions[i].fd {
      LoginKeepsGood(s, i, name, true);
      OneUserPerConnection(s', fd, user, id);
    } else {
      LoginSparesOthers(s, i, name, fd, user);
    }
  }

  lemma OneUserPerConnection(s: State, fd: int, a: int, b: int)
    requires Good(s) && LiveAs(s, fd, a) && LiveAs(s, fd, b)
    ensures a == b
  {
    var j :| 0 <= j < |s.sessions| && s.sessions[j].fd == fd && s.sessions[j].authenticated && s.sessions[j].id == a;
    LiveConnection(s, j, fd, b);
  }

  /** The part of a login's log before the answer. */
  function LoginOuts(s: State, i: nat, name: string): State
    requires i < |s.sessions|
  {
    var fd, user := s.sessions[i].fd, IdOf(s.users, name);
    var s1 := s.SendAll(RevokeOuts(s.sessions, fd, user, name, |s.sessions|)).(sessions := Revoked(s.sessions, fd, user));
    Announce(s1.(sessions := s1.sessions[i := s1.sessions[i].LoggedIn(user, name)]), user)
  }

  lemma LoginSteps(s: State, i: nat, name: string)
    requires i < |s.sessions| && NameTaken(s.users, name)
    ensures Login(s, i, name, true) == LoginOuts(s, i, name).Send(s.sessions[i].fd, AuthReply(AUTH_LOGIN, RESP_OK, ""))
    ensures KeepsAnswers(s.sent, LoginOuts(s, i, name).sent, s.sessions[i].fd)
  {
    hide Announce, RevokeOuts, IdOf;
    LoginOutsSpareAnswers(s, i, name, s.sessions[i].fd);
  }

  /** Before the answer, nobody gets an answer; who is told to leave is told so, and nobody else hears of an account. */
  lemma LoginOutsSpareAnswers(s: State, i: nat, name: string, fd: int)
    requires i < |s.sessions|
    ensures KeepsAnswers(s.sent, LoginOuts(s, i, name).sent, fd)
    ensures var outs := RevokeOuts(s.sessions, s.sessions[i].fd, IdOf(s.users, name), name, |s.sessions|);
            (forall o :: o in outs ==> o.fd != fd) ==> KeepsMe(s.sent, LoginOuts(s, i, name).sent, fd)
  {
    hide Announce, RevokeOuts, IdOf, AuthReply;
    var dest, user := s.sessions[i].fd, IdOf(s.users, name);
    var outs := RevokeOuts(s.sessions, dest, user, name, |s.sessions|);
    RevokeOutsAreFarewells(s.sessions, dest, user, name, |s.sessions|);
    var s1 := s.SendAll(outs).(sessions := Revoked(s.sessions, dest, user));
    AnnounceKeepsMe(s1.(sessions := s1.sessions[i := s1.sessions[i].LoggedIn(user, name)]), user, fd);
  }

  lemma {:induction false} RevokeOutsAreFarewells(sessions: seq<Session>, fd: int, user: int, name: string, n: nat)
    requires n <= |sessions|
    ensures forall o :: o in RevokeOuts(sessions, fd, user, name, n) ==> o.Sent? && !IsLoginAnswer(o.packet)
  {
    if n > 0 {
      RevokeOutsAreFarewells(sessions, fd, user, name, n - 1);
    }
  }

  /** The connection that logs in is not told to leave. */
  lemma RevocationSparesItself(s: State, dest: int, user: int, name: string)
    ensures forall o :: o in RevokeOuts(s.sessions, dest, user, name, |s.sessions|) ==> o.fd != dest
  {
    hide RevokeOuts;
    RevokedFds(s.sessions, dest, user, name, |s.sessions|);
  }

  /** A connection that is logged in after somebody else's login was not told to leave. */
  lemma RevocationSparesLive(s: State, i: nat, name: string, fd: int, user: int)
    requires Good(s) && i < |s.sessions| && NameTaken(s.users, name) && LiveAs(Login(s, i, name, true), fd, user)
    ensures forall o :: o in RevokeOuts(s.sessions, s.sessions[i].fd, IdOf(s.users, name), name, |s.sessions|) ==> o.fd != fd
  {
    hide RevokeOuts, Login;
    var dest, id := s.sessions[i].fd, IdOf(s.users, name);
    var outs := RevokeOuts(s.sessions, dest, id, name, |s.sessions|);
    RevokedFds(s.sessions, dest, id, name, |s.sessions|);
    forall o | o in outs ensures o.fd != fd {
      var k :| 0 <= k < |s.sessions| && s.sessions[k].fd == o.fd && IsRevoked(s.sessions[k], dest, id);
      RevokedIsNotLive(s, i, name, k);
    }
  }

  /** What a login that succeeds tells whom. */
  lemma LoginTells(s: State, i: nat, name: string, fd: int)
    requires i < |s.sessions| && NameTaken(s.users, name)
    ensures var t, t', dest := StandingOn(s.sent, fd), StandingOn(Login(s, i, name, true).sent, fd), s.sessions[i].fd;
            && (fd == dest ==> t' == Standing(t.answers + 1, t.welcomes + 1, t.answers))
            && (fd != dest ==> t'.answers == t.answers)
            && (fd != dest && (forall o :: o in RevokeOuts(s.sessions, dest, IdOf(s.users, name), name, |s.sessions|) ==> o.fd != fd) ==> t' == t)
  {
    hide Login, LoginOuts, StandingOn, NameTaken, IdOf, RevokeOuts, Told, AuthReply, KeepsMe, KeepsAnswers;
    var dest, before := s.sessions[i].fd, LoginOuts(s, i, name).sent;
    LoginSteps(s, i, name);
    LoginOutsSpareAnswers(s, i, name, fd);
    KeptAnswers(s.sent, before, fd);
    StandingOnAppend(before, Sent(dest, AuthReply(AUTH_LOGIN, RESP_OK, "")), fd);
    if fd == dest {
      RevocationSparesItself(s, dest, IdOf(s.users, name), name);
      ReplyTold(StandingOn(before, fd), AUTH_LOGIN, RESP_OK, "");
    }
    if forall o :: o in RevokeOuts(s.sessions, dest, IdOf(s.users, name), name, |s.sessions|) ==> o.fd != fd {
      KeptMe(s.sent, before, fd);
    }
  }

  lemma LoginKeepsUsers(s: State, i: nat, name: string)
    requires i < |s.sessions|
    ensures Login(s, i, name, true).users == s.users && |Login(s, i, name, true).sessions| == |s.sessions|
    ensures Login(s, i, name, true).sessions[i].fd == s.sessions[i].fd
  {
    hide Announce, RevokeOuts, NameTaken;
    var fd, user := s.sessions[i].fd, IdOf(s.users, name);
    var s1 := s.SendAll(RevokeOuts(s.sessions, fd, user, name, |s.sessions|)).(sessions := Revoked(s.sessions, fd, user));
    AnnounceKeepsTables(s1.(sessions := s1.sessions[i := s1.sessions[i].LoggedIn(user, name)]), user);
  }

  /** A login that does not succeed is answered, and that is all. */
  lemma RefusedLoginIs(s: State, i: nat, name: string, hashOk: bool)
    requires i < |s.sessions| && !(hashOk && NameTaken(s.users, name))
    ensures Login(s, i, name, hashOk)
            == s.Send(s.sessions[i].fd, AuthReply(AUTH_LOGIN, if !NameTaken(s.users, name) then 1 else RESP_ERR_INVALID, ""))
  {
    hide NameTaken, AuthReply, Announce, RevokeOuts, IdOf;
  }

  lemma RefusedLoginKeepsBook(s: State, i: nat, name: string, hashOk: bool, fd: int, book: seq<string>)
    requires i < |s.sessions| && BookOk(s, fd, book) && !(hashOk && NameTaken(s.users, name))
    ensures BookOk(Login(s, i, name, hashOk), fd, if fd == s.sessions[i].fd then book + [name] else book)
  {
    hide Login, StandingOn, NameTaken, NameOf, Told, LiveAs, AuthReply;
    var status := if !NameTaken(s.users, name) then 1 else RESP_ERR_INVALID;
    RefusedLoginIs(s, i, name, hashOk);
    StandingOnAppend(s.sent, Sent(s.sessions[i].fd, AuthReply(AUTH_LOGIN, status, "")), fd);
    ReplyTold(StandingOn(s.sent, fd), AUTH_LOGIN, status, "");
    SameLive(s, Login(s, i, name, hashOk), fd);
  }

  lemma LoginKeepsBook(s: State, i: nat, name: string, hashOk: bool, fd: int, book: seq<string>)
    requires Good(s) && i < |s.sessions| && BookOk(s, fd, book)
    ensures BookOk(Login(s, i, name, hashOk), fd, if fd == s.sessions[i].fd then book + [name] else book)
  {
    hide Login, StandingOn, NameOf, Good, LiveAs, NameTaken, IdOf, RevokeOuts;
    if hashOk && NameTaken(s.users, name) {
      var s' := Login(s, i, name, true);
      LoginTells(s, i, name, fd);
      LoginKeepsUsers(s, i, name);
      forall user | LiveAs(s', fd, user)
        ensures StandingOn(s'.sent, fd).inForce >= 0
        ensures (if fd == s.sessions[i].fd then book + [name] else book)[StandingOn(s'.sent, fd).inForce] == NameOf(s'.users, user)
      {
        LoggedInNames(s, i, name, fd, user);
        RevocationSparesLive(s, i, name, fd, user);
      }
    } else {
      RefusedLoginKeepsBook(s, i, name, hashOk, fd, book);
    }
  }

  // ------------------------------------------------------------ logout

  lemma LogoutLogs(s: State, i: nat, fd: int)
    requires i < |s.sessions|
    ensures KeepsAnswers(s.sent, Logout(s, i).sent, fd)
    ensures s.sessions[i].fd != fd ==> KeepsMe(s.sent, Logout(s, i).sent, fd)
  {
    hide Announce;
    var c := s.sessions[i];
    AnnounceKeepsMe(s.(sessions := s.sessions[i := c.Cleared()]), c.id, fd);
  }

  lemma LogoutKeepsUsers(s: State, i: nat)
    requires i < |s.sessions|
    ensures Logout(s, i).users == s.users && Logout(s, i).sessions == s.sessions[i := if s.sessions[i].authenticated then s.sessions[i].Cleared() else s.sessions[i]]
  {
    hide Announce;
    AnnounceKeepsTables(s.(sessions := s.sessions[i := s.sessions[i].Cleared()]), s.sessions[i].id);
  }

  lemma LogoutKeepsBook(s: State, i: nat, fd: int, book: seq<string>)
    requires Good(s) && i < |s.sessions| && BookOk(s, fd, book)
    ensures BookOk(Logout(s, i), fd, book)
  {
    var s', c := Logout(s, i), s.sessions[i];
    LogoutKeepsUsers(s, i);
    LogoutLogs(s, i, fd);
    if c.fd == fd {
      KeptAnswers(s.sent, s'.sent, fd);
      forall user ensures !LiveAs(s', fd, user) {
        LoggedOutIsNotLive(s, i, user);
      }
    } else {
      hide Logout, Good, BookOk;
      forall user | LiveAs(s', fd, user) ensures LiveAs(s, fd, user) {
        var j :| 0 <= j < |s'.sessions| && s'.sessions[j].fd == fd && s'.sessions[j].authenticated && s'.sessions[j].id == user;
        assert s.sessions[j] == s'.sessions[j];
      }
      SameBook(s, s', fd, book);
    }
  }

  // ------------------------------------------------------------ every event

  lemma AuthKeepsBook(s: State, i: nat, p: Packet, hashOk: bool, fd: int, book: seq<string>)
    requires Good(s) && i < |s.sessions| && p.payload.Auth? && BookOk(s, fd, book)
    ensures BookOk(HandleAuth(s, i, p, hashOk), fd, Noted(s, Request(i, p, hashOk), fd, book))
  {
    hide Register, Login, Logout, BookOk, Good;
    RegisterKeepsBook(s, i, p.payload.username, hashOk, fd, book);
    LoginKeepsBook(s, i, p.payload.username, hashOk, fd, book);
    LogoutKeepsBook(s, i, fd, book);
  }

  lemma StepKeepsBook(s: State, e: Event, fd: int, book: seq<string>)
    requires Good(s) && Enabled(s, e) && BookOk(s, fd, book)
    ensures BookOk(Step(s, e), fd, Noted(s, e, fd, book))
  {
    hide Good, BookOk, HandleAuth, HandleDm, HandleServer, HandleChannel, HandleSocial, Announce, KeepsMe, Connect, Disconnect;
    var s' := Step(s, e);
    match e
    case Accept(other) => ConnectKeepsBook(s, other, fd, book);
    case Hangup(i) => DisconnectKeepsBook(s, i, fd, book);
    case Request(i, p, hashOk) =>
      match p.payload
      case Auth(_, _, _, _) => AuthKeepsBook(s, i, p, hashOk, fd, book);
      case Dm(_, _, _, _, _) =>
        DmAside(s, i, p);
        AsideStepKeepsBook(s, s', Dms, fd, book);
      case Server(_, _, _, _, _, _) =>
        ServerAside(s, i, p);
        AsideStepKeepsBook(s, s', Servers, fd, book);
      case Channel(_, _, _, _, _, _, _) =>
        ChannelAside(s, i, p);
        AsideStepKeepsBook(s, s', Channels, fd, book);
      case Social(_, _, _, _, _, _) => SocialStepKeepsBook(s, i, p, fd, book);
  }

  lemma SocialStepKeepsBook(s: State, i: nat, p: Packet, fd: int, book: seq<string>)
    requires Good(s) && i < |s.sessions| && p.payload.Social? && BookOk(s, fd, book)
    ensures BookOk(HandleSocial(s, i, p), fd, book)
  {
    hide Good, HandleSocial, NameOf, UserIds, BookOk, KeepsMe;
    var s' := HandleSocial(s, i, p);
    SocialAside(s, i, p);
    SocialKeepsUsers(s, i, p);
    AsideKeepsMe(s.sent, s'.sent, Socials, fd);
    forall user | LiveAs(s', fd, user) ensures LiveAs(s, fd, user) && user in s.Ids() {
      LiveIds(s, fd, user);
    }
    SameBook(s, s', fd, book);
  }

  lemma AsideStepKeepsBook(s: State, s': State, kind: Kind, fd: int, book: seq<string>)
    requires Aside(s, s', kind) && !kind.Accounts? && BookOk(s, fd, book)
    ensures BookOk(s', fd, book)
  {
    hide BookOk, KeepsMe;
    AsideKeepsMe(s.sent, s'.sent, kind, fd);
    SameBook(s, s', fd, book);
  }

  lemma ConnectKeepsBook(s: State, other: int, fd: int, book: seq<string>)
    requires Enabled(s, Accept(other)) && BookOk(s, fd, book)
    ensures BookOk(Connect(s, other), fd, Noted(s, Accept(other), fd, book))
  {
    var s' := Connect(s, other);
    if |s.sessions| < MAX_CLIENTS {
      StandingOnAppend(s.sent, Opened(other), fd);
      hide StandingOn;
      forall user | LiveAs(s', fd, user) ensures LiveAs(s, fd, user) && fd != other {
        var j :| 0 <= j < |s'.sessions| && s'.sessions[j].fd == fd && s'.sessions[j].authenticated && s'.sessions[j].id == user;
        assert s.sessions[j] == s'.sessions[j];
      }
    }
  }

  lemma DisconnectKeepsBook(s: State, i: nat, fd: int, book: seq<string>)
    requires i < |s.sessions| && BookOk(s, fd, book)
    ensures BookOk(Disconnect(s, i), fd, book)
  {
    hide Announce, BookOk, KeepsMe;
    var c, s1 := s.sessions[i], s.(sessions := s.sessions[..i] + s.sessions[i + 1..]);
    AnnounceKeepsMe(s1, c.id, fd);
    AnnounceKeepsTables(s1, c.id);
    KeepsMeAppend(s.sent, [], fd);
    assert s.sent + [] == s.sent;
    forall user | LiveAs(s1, fd, user) ensures LiveAs(s, fd, user) {
      var j :| 0 <= j < |s1.sessions| && s1.sessions[j].fd == fd && s1.sessions[j].authenticated && s1.sessions[j].id == user;
      assert s.sessions[if j < i then j else j + 1] == s1.sessions[j];
    }
    SameBook(s, Disconnect(s, i), fd, book);
  }

  /** In every run each login is answered once, and who is live is the user named in the login whose answer is in force. */
  lemma {:induction false} LoginsAreAnswered(s: State, es: seq<Event>, fd: int, book: seq<string>)
    requires Good(s) && Runs(s, es) && BookOk(s, fd, book)
    ensures BookOk(Run(s, es), fd, Logins(s, es, fd, book))
    decreases |es|
  {
    hide Good, BookOk, Step, Noted;
    if es != [] {
      StepKeepsGood(s, es[0]);
      StepKeepsBook(s, es[0], fd, book);
      LoginsAreAnswered(Step(s, es[0]), es[1..], fd, Noted(s, es[0], fd, book));
    }
  }

  // ------------------------------------------------------------ the client's own name

  /**
   What the client behind `fd` has lived through: everything sent to it has arrived, with any edits and
   submissions in between; what the server took in are its first submissions, and no answer precedes its submission.
   */
  ghost predicate IsHistory(xs: seq<Input>, s: State, fd: int, book: seq<string>) {
    Arrivals(xs) == PacketsOn(s.sent, fd) && book <= Submitted(xs) && OnTime(xs)
  }

  /** The names stored by the client fit its array. */
  predicate NamesFit(xs: seq<Input>) {
    |Client(xs).names| <= MAX_USERS
  }

  /**
   Between the submission that is in force and its answer, no other answer OK and no farewell arrived, and the
   form was not edited, or was last edited back to the name.
   */
  ghost predicate FormHeld(xs: seq<Input>) {
    var k := Heard(xs).inForce;
    0 <= k < |Submitted(xs)| && Holds(Between(xs, k), Submitted(xs)[k])
  }

  /** The client takes the name of the user for its own. */
  predicate KnowsItself(xs: seq<Input>, users: seq<UserRow>, user: int) {
    Client(xs).Me() == Some(Truncated(NameOf(users, user), NAME_LEN))
  }

  lemma OwnNameIfHeld(s: State, fd: int, user: int, book: seq<string>, xs: seq<Input>)
    requires BookOk(s, fd, book) && LiveAs(s, fd, user) && IsHistory(xs, s, fd, book)
    ensures KnowsItself(xs, s.users, user) <==> FormHeld(xs)
  {
    hide Client, Submitted, OnTime, Holds, Between, LiveAs, NameOf;
    OwnNameIsSubmitted(xs);
    var k := Heard(xs).inForce;
    assert Submitted(xs)[k] == book[k] && Submitted(xs)[k] in Submitted(xs);
  }

  /**
   In every run and for every interleaving of the client's edits and submissions with its arrivals: a client
   whose connection is logged in as a user, and whose stored names fit, takes the name of that very user for
   its own if and only if its form held the submitted name until the answer came.
   */
  lemma OwnNameInEveryRun(s: State, es: seq<Event>, fd: int, user: int, book: seq<string>, xs: seq<Input>)
    requires Good(s) && Runs(s, es) && BookOk(s, fd, book)
    ensures LiveAs(Run(s, es), fd, user) && IsHistory(xs, Run(s, es), fd, Logins(s, es, fd, book)) && NamesFit(xs) ==>
              (KnowsItself(xs, Run(s, es).users, user) <==> FormHeld(xs))
  {
    hide Good, Run, Runs, BookOk, Logins, LiveAs, IsHistory, FormHeld, KnowsItself;
    LoginsAreAnswered(s, es, fd, book);
    var s', book' := Run(s, es), Logins(s, es, fd, book);
    if LiveAs(s', fd, user) && IsHistory(xs, s', fd, book') {
      OwnNameIfHeld(s', fd, user, book', xs);
    }
  }

}
