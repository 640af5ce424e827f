/** `server/tizcord_social.c`: pushes of user and friend lists, and the social requests. */
module SocialHandlers {
  import opened Names
  import opened Protocol
  import opened Friends
  import opened Listing
  import opened Server
  import opened Invariants
  import opened Database
  import opened Context

  // ------------------------------------------------------------ user lists

  /** `user_list_cb` */
  method UserListItem(ctx: ServerContext, fd: int, u: UserRow, index: int)
    requires ctx.Valid()
    modifies ctx`sent
    ensures ctx.sent == old(ctx.sent) + [Sent(fd, UserPacket(ctx.Sessions(), u, index))]
  {
    var online := ctx.ClientIsOnline(u.id);
    ctx.PacketSend(fd, Packet(0, index, -1, LIST_FRAME_MIDDLE,
                              Social(if online then STATUS_ONLINE else STATUS_OFFLINE, SOCIAL_LIST_USERS, if online then 1 else 0,
                                     u.id, Truncated(u.name, NAME_LEN), Truncated(u.status, STATUS_LEN))));
  }

  /** One whole user list: a start frame, a frame for each row of the query, an end frame. */
  method SendUserList(ctx: ServerContext, fd: int)
    requires ctx.Valid()
    modifies ctx`sent
    ensures ctx.sent == old(ctx.sent) + Into(fd, UserListStream(ctx.Sessions(), ctx.db.users))
  {
    var rows, index := ByName(ctx.db.users), 0;
    ghost var items := UserItems(ctx.Sessions(), rows);
    ctx.PacketSend(fd, ListStart(SOCIAL_LIST_USERS));
    while index < |rows|
      invariant 0 <= index <= |rows|
      invariant ctx.sent == old(ctx.sent) + [Sent(fd, ListStart(SOCIAL_LIST_USERS))] + Into(fd, items[..index])
    {
      UserListItem(ctx, fd, rows[index], index);
      IntoTake(fd, items, index);
      index := index + 1;
    }
    assert items[..index] == items;
    ctx.PacketSend(fd, ListEnd(SOCIAL_LIST_USERS, index));
    FramedInto(fd, ListStart(SOCIAL_LIST_USERS), items, ListEnd(SOCIAL_LIST_USERS, index));
  }

  lemma FramedInto(fd: int, start: Packet, items: seq<Packet>, end: Packet)
    ensures Into(fd, [start] + items + [end]) == [Sent(fd, start)] + Into(fd, items) + [Sent(fd, end)]
  {}

  /** `notify_all_user_lists` */
  method NotifyAllUserLists(ctx: ServerContext)
    requires ctx.Valid()
    modifies ctx`sent
    ensures ctx.sent == old(ctx.sent) + NotifyUsers(ctx.Sessions(), ctx.db.users, ctx.clientCount)
  {
    hide UserListStream;
    for i := 0 to ctx.clientCount
      invariant ctx.sent == old(ctx.sent) + NotifyUsers(ctx.Sessions(), ctx.db.users, i)
    {
      var c := ctx.clients[i].session;
      assert c == ctx.Sessions()[i];
      if c.fd <= 0 || !c.authenticated {
        continue;
      }
      SendUserList(ctx, c.fd);
    }
  }

  // ------------------------------------------------------------ friend lists

  /** One whole friend list: start frame, `friend_request_cb` for each row, end frame. */
  method SendFriendList(ctx: ServerContext, fd: int, user: int)
    modifies ctx`sent
    ensures ctx.sent == old(ctx.sent) + Into(fd, FriendListStream(FriendListing(ctx.db.friends, ctx.db.users, user)))
  {
    hide FriendListing;
    var rows, index := FriendListing(ctx.db.friends, ctx.db.users, user), 0;
    ghost var items := FriendItems(rows);
    ctx.PacketSend(fd, ListStart(SOCIAL_LIST_FRIENDS));
    while index < |rows|
      invariant 0 <= index <= |rows|
      invariant ctx.sent == old(ctx.sent) + [Sent(fd, ListStart(SOCIAL_LIST_FRIENDS))] + Into(fd, items[..index])
    {
      ctx.PacketSend(fd, FriendPacket(rows[index], index));
      IntoTake(fd, items, index);
      index := index + 1;
    }
    assert items[..index] == items;
    ctx.PacketSend(fd, ListEnd(SOCIAL_LIST_FRIENDS, index));
    FramedInto(fd, ListStart(SOCIAL_LIST_FRIENDS), items, ListEnd(SOCIAL_LIST_FRIENDS, index));
  }

  /** `notify_friend_list_update`: the loop stops at the first record with the id. */
  method NotifyFriendListUpdate(ctx: ServerContext, user: int)
    requires ctx.Valid()
    modifies ctx`sent
    ensures ctx.sent == old(ctx.sent) + NotifyFriends(old(ctx.State()), user)
  {
    hide FriendListing, FriendListStream;
    for i := 0 to ctx.clientCount
      invariant ctx.sent == old(ctx.sent)
      invariant FirstWithId(ctx.Sessions(), user, 0) == FirstWithId(ctx.Sessions(), user, i)
    {
      var c := ctx.clients[i].session;
      assert c == ctx.Sessions()[i];
      if c.fd > 0 && c.id == user {
        SendFriendList(ctx, c.fd, user);
        return;
      }
    }
  }

  // ------------------------------------------------------------ status updates

  /** `notify_user_status_update` */
  method NotifyUserStatusUpdate(ctx: ServerContext, user: int, name: string, profile: string)
    requires ctx.Valid()
    modifies ctx`sent
    ensures var p := StatusPacket(RESP_OK, user, name, profile, Online(ctx.Sessions(), user));
            ctx.sent == old(ctx.sent) + ToSessions(ctx.Sessions(), p, ctx.clientCount)
  {
    var online := ctx.ClientIsOnline(user);
    for i := 0 to ctx.clientCount
      invariant ctx.sent == old(ctx.sent) + ToSessions(ctx.Sessions(), StatusPacket(RESP_OK, user, name, profile, online), i)
    {
      var c := ctx.clients[i].session;
      assert c == ctx.Sessions()[i];
      if c.fd > 0 && c.authenticated {
        ctx.PacketSend(c.fd, StatusPacket(RESP_OK, user, name, profile, online));
      }
    }
  }

  // ------------------------------------------------------------ requests

  /** The arms of `handle_social_packet` that change the friends table. */
  method HandleFriendRequest(ctx: ServerContext, i: nat, action: int, name: string)
    requires ctx.Valid() && i < ctx.clientCount && Good(ctx.State()) && IsFriendAction(action)
    modifies ctx`sent, ctx.db`friends
    ensures ctx.State() == HandleFriend(old(ctx.State()), i, action, name)
  {
    hide NameTaken, IdOf, NotifyFriends, Good, Ask, Friends.Accept, Remove, Reject;
    ghost var s := ctx.State();
    GoodFriends(s);
    var c := ctx.clients[i].session;
    assert c == ctx.Sessions()[i];
    var found, other := ctx.db.GetUserIdByName(name);
    if found != 0 {
      ctx.PacketSend(c.fd, SocialResponse(action, RESP_ERR_NOT_FOUND));
      return;
    }
    if action == SOCIAL_FRIEND_REQUEST && other == c.id {
      ctx.PacketSend(c.fd, SocialResponse(action, RESP_ERR_INVALID));
      return;
    }
    var rc;
    if action == SOCIAL_FRIEND_REQUEST {
      rc := ctx.db.SendFriendRequest(c.id, other);
    } else if action == SOCIAL_FRIEND_ACCEPT {
      rc := ctx.db.AcceptFriendRequest(c.id, other);
    } else if action == SOCIAL_FRIEND_REJECT {
      rc := ctx.db.RejectFriendRequest(c.id, other);
    } else {
      rc := ctx.db.RemoveFriendship(c.id, other);
    }
    ghost var s1 := ctx.State();
    assert (rc, s1.friends) == Perform(FriendOp(VerbOf(action), c.id, other, s.Ids()), s.friends);
    assert s1 == s.(friends := s1.friends);
    if rc < 0 {
      ctx.PacketSend(c.fd, SocialResponse(action, FriendError(action, rc)));
      return;
    }
    ctx.PacketSend(c.fd, SocialResponse(action, RESP_OK));
    ghost var s2 := ctx.State();
    assert s2 == s1.Send(c.fd, SocialResponse(action, RESP_OK));
    if rc == 1 {
      NotifyFriendListUpdate(ctx, c.id);
    }
    ghost var s3 := ctx.State();
    assert s3 == if rc == 1 then s2.SendAll(NotifyFriends(s2, c.id)) else s2;
    NotifyFriendListUpdate(ctx, other);
    assert ctx.State() == s3.SendAll(NotifyFriends(s3, other));
  }

  lemma GoodFriends(s: State)
    requires Good(s)
    ensures TableOk(s.friends)
  {}

  /** The status arm of `handle_social_packet`. */
  method HandleStatusUpdate(ctx: ServerContext, i: nat, profile: string)
    requires ctx.Valid() && i < ctx.clientCount
    modifies ctx`sent, ctx.db`users
    ensures ctx.State() == UpdateStatus(old(ctx.State()), i, profile)
  {
    hide ToSessions, WithProfile;
    var c := ctx.clients[i].session;
    assert c == ctx.Sessions()[i];
    if |profile| == 0 || |profile| > STATUS_LEN {
      ctx.PacketSend(c.fd, StatusPacket(RESP_ERR_INVALID, c.id, c.username, "", true));
      return;
    }
    var rc := ctx.db.UpdateUserStatus(c.id, profile);
    if rc != 0 {
      ctx.PacketSend(c.fd, StatusPacket(RESP_ERR_DB, c.id, c.username, "", true));
      return;
    }
    NotifyUserStatusUpdate(ctx, c.id, c.username, profile);
  }

  /** `handle_social_packet` */
  method HandleSocialPacket(ctx: ServerContext, i: nat, p: Packet)
    requires ctx.Valid() && i < ctx.clientCount && Good(ctx.State()) && p.payload.Social?
    modifies ctx`sent, ctx.db`friends, ctx.db`users
    ensures ctx.State() == HandleSocial(old(ctx.State()), i, p)
  {
    hide HandleFriend, UpdateStatus, UserListStream, FriendListStream, FriendListing, Good;
    var c, action := ctx.clients[i].session, p.payload.action;
    assert c == ctx.Sessions()[i];
    if !c.authenticated {
      ctx.PacketSend(c.fd, SocialResponse(action, RESP_ERR_UNAUTHORIZED));
    } else if IsFriendAction(action) {
      HandleFriendRequest(ctx, i, action, p.payload.name);
    } else if action == SOCIAL_LIST_FRIENDS {
      SendFriendList(ctx, c.fd, c.id);
    } else if action == SOCIAL_LIST_USERS {
      SendUserList(ctx, c.fd);
    } else if action == SOCIAL_UPDATE_STATUS {
      HandleStatusUpdate(ctx, i, p.payload.profile);
    } else {
      ctx.PacketSend(c.fd, SocialResponse(action, RESP_ERR_INVALID));
    }
  }
}
