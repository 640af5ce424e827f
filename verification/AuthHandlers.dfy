/** `server/auth.c`: accounts and sessions. */
module AuthHandlers {
  import opened Names
  import opened Protocol
  import opened Friends
  import opened Listing
  import opened Server
  import opened Invariants
  import opened Database
  import opened Context
  import SocialHandlers
  import ServerHandlers

  /** Connection `i` is the one behind `fd`, and no other is. */
  ghost predicate IsClient(ctx: ServerContext, i: nat, fd: int)
    reads ctx`clientCount, ctx.clients
    requires ctx.Valid()
  {
    && i < ctx.clientCount && ctx.Sessions()[i].fd == fd
    && forall j :: 0 <= j < ctx.clientCount && j != i ==> ctx.Sessions()[j].fd != fd
  }

  lemma ClientOfGoodState(ctx: ServerContext, i: nat)
    requires ctx.Valid() && i < ctx.clientCount && Good(ctx.State())
    ensures IsClient(ctx, i, ctx.Sessions()[i].fd)
  {}

  /** `revoke_existing_login`: ends every other session of the user while it walks over the records. */
  method RevokeExistingLogin(ctx: ServerContext, currentFd: int, user: int, name: string)
    requires ctx.Valid()
    modifies ctx`sent, ctx.clients
    ensures ctx.Valid() && ctx.Pipes() == old(ctx.Pipes())
    ensures ctx.Sessions() == Revoked(old(ctx.Sessions()), currentFd, user)
    ensures ctx.sent == old(ctx.sent) + RevokeOuts(old(ctx.Sessions()), currentFd, user, name, ctx.clientCount)
  {
    hide RevokeOuts, Revoked;
    ghost var was := ctx.Sessions();
    RevokeOutsStart(was, currentFd, user, name);
    for i := 0 to ctx.clientCount
      invariant ctx.Valid() && ctx.Pipes() == old(ctx.Pipes()) && ctx.clientCount == |was|
      invariant RevokedUpTo(was, ctx.Sessions(), currentFd, user, i)
      invariant ctx.sent == old(ctx.sent) + RevokeOuts(was, currentFd, user, name, i)
    {
      RevokeOutsStep(was, currentFd, user, name, i);
      var other := ctx.clients[i].session;
      assert other == ctx.Sessions()[i] == was[i];
      if other.fd <= 0 || other.fd == currentFd {
        continue;
      }
      if !other.authenticated || other.id != user {
        continue;
      }
      ctx.PacketSend(other.fd, AuthReply(AUTH_LOGOUT, RESP_OK, name));
      ctx.SetSession(i, other.Cleared());
    }
    AllRevoked(was, ctx.Sessions(), currentFd, user);
  }

  /** The first `n` records have been looked at, the others not yet. */
  ghost predicate RevokedUpTo(was: seq<Session>, now: seq<Session>, fd: int, user: int, n: nat) {
    && |now| == |was|
    && forall k :: 0 <= k < |was| ==> now[k] == if k < n && IsRevoked(was[k], fd, user) then was[k].Cleared() else was[k]
  }

  lemma AllRevoked(was: seq<Session>, now: seq<Session>, fd: int, user: int)
    requires RevokedUpTo(was, now, fd, user, |was|)
    ensures now == Revoked(was, fd, user)
  {}

  lemma RevokeOutsStart(was: seq<Session>, fd: int, user: int, name: string)
    ensures RevokeOuts(was, fd, user, name, 0) == []
  {}

  lemma RevokeOutsStep(was: seq<Session>, fd: int, user: int, name: string, n: nat)
    requires n < |was|
    ensures RevokeOuts(was, fd, user, name, n + 1)
            == RevokeOuts(was, fd, user, name, n) + if IsRevoked(was[n], fd, user) then [Sent(was[n].fd, AuthReply(AUTH_LOGOUT, RESP_OK, name))] else []
  {}

  /** Links an identity to the record of a descriptor, as registration and login do. */
  method LinkIdentity(ctx: ServerContext, fd: int, user: int, name: string, ghost i: nat)
    requires ctx.Valid() && IsClient(ctx, i, fd)
    modifies ctx.clients
    ensures ctx.Valid() && ctx.Pipes() == old(ctx.Pipes())
    ensures ctx.Sessions() == old(ctx.Sessions())[i := old(ctx.Sessions())[i].LoggedIn(user, name)]
  {
    var k := ctx.FindClient(fd, i);
    var c := ctx.clients[k].session;
    assert c == ctx.Sessions()[k];
    ctx.SetSession(k, c.LoggedIn(user, name));
  }

  /** `register_account`; `hashOk` tells whether the password could be hashed. */
  method RegisterAccount(ctx: ServerContext, fd: int, name: string, hashOk: bool, ghost i: nat)
    requires ctx.Valid() && IsClient(ctx, i, fd)
    modifies ctx`sent, ctx.clients, ctx.db`users
    ensures ctx.Valid() && ctx.Pipes() == old(ctx.Pipes())
    ensures ctx.State() == Register(old(ctx.State()), i, name, hashOk)
  {
    hide NotifyUsers, NameTaken, NextId;
    if !hashOk {
      ctx.PacketSend(fd, AuthReply(AUTH_REGISTER, 1, ""));
      return;
    }
    var rc, id := ctx.db.CreateUser(name);
    if rc == 0 {
      LinkIdentity(ctx, fd, id, name, i);
      SocialHandlers.NotifyAllUserLists(ctx);
      ctx.PacketSend(fd, AuthReply(AUTH_REGISTER, RESP_OK, ""));
    } else {
      ctx.PacketSend(fd, AuthReply(AUTH_REGISTER, RESP_ERR_CONFLICT, ""));
    }
  }

  /** What the ends of login, logout and a lost connection have in common: member lists, then user lists. */
  method AnnounceChange(ctx: ServerContext, user: int)
    requires ctx.Valid() && Good(ctx.State()) && user > 0
    modifies ctx`sent, ctx.clients
    ensures ctx.Valid() && ctx.Pipes() == old(ctx.Pipes())
    ensures ctx.State() == Announce(old(ctx.State()), user)
  {
    hide NotifyUsers, NotifyJoined, JoinedServers, Good;
    ServerHandlers.NotifyServerMemberListsForUser(ctx, user);
    SocialHandlers.NotifyAllUserLists(ctx);
  }

  /** The state of a login between the change of the sessions and the announcement. */
  function Linked(s: State, i: nat, name: string): State
    requires i < |s.sessions|
  {
    var fd, user := s.sessions[i].fd, IdOf(s.users, name);
    var r := Revoked(s.sessions, fd, user);
    s.SendAll(RevokeOuts(s.sessions, fd, user, name, |s.sessions|)).(sessions := r[i := r[i].LoggedIn(user, name)])
  }

  lemma LinkedIsGood(s: State, i: nat, name: string)
    requires Good(s) && i < |s.sessions| && NameTaken(s.users, name)
    ensures Good(Linked(s, i, name)) && IdOf(s.users, name) > 0
    ensures Login(s, i, name, true)
            == Announce(Linked(s, i, name), IdOf(s.users, name)).Send(s.sessions[i].fd, AuthReply(AUTH_LOGIN, RESP_OK, ""))
  {
    LookupIsExact(s.users, name);
    LoginKeepsGood(s, i, name, true);
    LogIsIrrelevant(Login(s, i, name, true), Linked(s, i, name).sent);
    hide Good, RevokeOuts, Revoked, NotifyJoined, NotifyUsers, JoinedServers;
  }

  /** `login_account`; `hashOk` tells whether the password matches. */
  method LoginAccount(ctx: ServerContext, fd: int, name: string, hashOk: bool, ghost i: nat)
    requires ctx.Valid() && IsClient(ctx, i, fd) && Good(ctx.State())
    modifies ctx`sent, ctx.clients
    ensures ctx.Valid() && ctx.Pipes() == old(ctx.Pipes())
    ensures ctx.State() == Login(old(ctx.State()), i, name, hashOk)
  {
    hide Announce, NameTaken, IdOf, Good, RevokeOuts;
    ghost var s := ctx.State();
    var rc, user := ctx.db.GetUserIdByName(name);
    if rc != 0 {
      ctx.PacketSend(fd, AuthReply(AUTH_LOGIN, 1, ""));
      return;
    }
    if !hashOk {
      ctx.PacketSend(fd, AuthReply(AUTH_LOGIN, RESP_ERR_INVALID, ""));
      return;
    }
    LinkedIsGood(s, i, name);
    RevokeExistingLogin(ctx, fd, user, name);
    LinkIdentity(ctx, fd, user, name, i);
    assert ctx.State() == Linked(s, i, name);
    hide Linked, Login;
    AnnounceChange(ctx, user);
    ctx.PacketSend(fd, AuthReply(AUTH_LOGIN, RESP_OK, ""));
  }

  lemma ClearedIsGood(s: State, i: nat)
    requires Good(s) && i < |s.sessions| && s.sessions[i].authenticated
    ensures Good(s.(sessions := s.sessions[i := s.sessions[i].Cleared()])) && s.sessions[i].id > 0
  {
    assert s.sessions[i] in s.sessions;
    SessionReplaced(s.sessions, s.users, i, s.sessions[i].Cleared());
    UserIdIn(s.users);
  }

  /** `logout_account` */
  method LogoutAccount(ctx: ServerContext, fd: int, ghost i: nat)
    requires ctx.Valid() && IsClient(ctx, i, fd) && Good(ctx.State())
    modifies ctx`sent, ctx.clients
    ensures ctx.Valid() && ctx.Pipes() == old(ctx.Pipes())
    ensures ctx.State() == Logout(old(ctx.State()), i)
  {
    hide Announce, Good;
    ghost var s := ctx.State();
    var k := ctx.FindClient(fd, i);
    var c := ctx.clients[k].session;
    assert c == ctx.Sessions()[k];
    if !c.authenticated {
      ctx.PacketSend(fd, AuthReply(AUTH_LOGOUT, RESP_ERR_UNAUTHORIZED, ""));
      return;
    }
    ClearedIsGood(s, i);
    ctx.SetSession(k, c.Cleared());
    AnnounceChange(ctx, c.id);
    ctx.PacketSend(fd, AuthReply(AUTH_LOGOUT, RESP_DONE, c.username));
  }

  /** `handle_auth_packet` */
  method HandleAuthPacket(ctx: ServerContext, fd: int, p: Packet, hashOk: bool, ghost i: nat)
    requires ctx.Valid() && IsClient(ctx, i, fd) && Good(ctx.State()) && p.payload.Auth?
    modifies ctx`sent, ctx.clients, ctx.db`users
    ensures ctx.Valid() && ctx.Pipes() == old(ctx.Pipes())
    ensures ctx.State() == HandleAuth(old(ctx.State()), i, p, hashOk)
  {
    hide Register, Login, Logout, Good;
    if p.payload.action == AUTH_REGISTER {
      RegisterAccount(ctx, fd, p.payload.username, hashOk, i);
    } else if p.payload.action == AUTH_LOGIN {
      LoginAccount(ctx, fd, p.payload.username, hashOk, i);
    } else if p.payload.action == AUTH_LOGOUT {
      LogoutAccount(ctx, fd, i);
    }
  }
}
