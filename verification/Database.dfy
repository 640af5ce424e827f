/**
 The database handle of `server/db.c`: one sequence of rows for each table, and one method for each
 function, which runs its SQL statements one after the other.
 */
module Database {
  import opened Names
  import opened Friends
  import Store
  import opened Server

  class DbContext {
    var users: seq<UserRow>
    var friends: seq<FriendRow>
    var servers: seq<Store.ServerRow>
    var members: seq<Store.MemberRow>
    var channels: seq<Store.ChannelRow>
    var messages: seq<Store.MessageRow>
    var dms: seq<DmRow>

    function Tables(): Store.Tables
      reads this
    {
      Store.Tables(servers, members, channels, messages)
    }

    /** An empty database. */
    constructor ()
      ensures users == [] && friends == [] && Tables() == Store.Tables([], [], [], []) && dms == []
    {
      users, friends, servers, members, channels, messages, dms := [], [], [], [], [], [], [];
    }

    // ---------------------------------------------------------- users

    method CreateUser(name: string) returns (rc: int, id: int)
      modifies this`users
      ensures rc == if NameTaken(old(users), name) then -1 else 0
      ensures users == if rc == 0 then old(users) + [UserRow(id, name, "")] else old(users)
      ensures rc == 0 ==> id == NextId(UserIds(old(users)))
    {
      rc, id := -1, 0;
      if !NameTaken(users, name) {
        rc, id := 0, NextId(UserIds(users));
        users := users + [UserRow(id, name, "")];
      }
    }

    method GetUserIdByName(name: string) returns (rc: int, id: int)
      ensures rc == if NameTaken(users, name) then 0 else -1
      ensures rc == 0 ==> id == IdOf(users, name)
    {
      rc, id := -1, 0;
      if NameTaken(users, name) {
        rc, id := 0, IdOf(users, name);
      }
    }

    method UpdateUserStatus(id: int, profile: string) returns (rc: int)
      modifies this`users
      ensures rc == if id in UserIds(old(users)) then 0 else -1
      ensures users == if rc == 0 then WithProfile(old(users), id, profile) else old(users)
    {
      rc := if id in UserIds(users) then 0 else -1;
      if rc == 0 {
        users := WithProfile(users, id, profile);
      }
    }

    // ---------------------------------------------------------- friends

    /** `db_send_friend_request`: steps through the rows that join the two, then decides. */
    method SendFriendRequest(user: int, friend: int) returns (rc: int)
      requires TableOk(friends)
      modifies this`friends
      ensures (rc, friends) == Ask(old(friends), UserIds(users), user, friend)
    {
      var sameDirection, reciprocal := -1, -1;
      var rows := Filter((r: FriendRow) => r.Joins(user, friend), friends);
      FilterMembers((r: FriendRow) => r.Joins(user, friend), friends);
      for k := 0 to |rows|
        invariant friends == old(friends)
        invariant sameDirection == Status(rows[..k], user, friend)
        invariant user != friend ==> reciprocal == Status(rows[..k], friend, user)
        invariant user == friend ==> reciprocal == -1
      {
        ghost var before := rows[..k];
        assert rows[..k + 1] == before + [rows[k]] && rows[k] in rows;
        LastRowDecides(friends, rows, k);
        if rows[k].user == user && rows[k].friend == friend {
          sameDirection := if rows[k].accepted then 1 else 0;
        } else if rows[k].user == friend && rows[k].friend == user {
          reciprocal := if rows[k].accepted then 1 else 0;
        }
      }
      assert rows[..|rows|] == rows;
      SelectedStatus(friends, user, friend);
      NoSelfRows(friends, user);
      if sameDirection == 1 || reciprocal == 1 {
        return -2;
      }
      if reciprocal == 0 {
        var accepted := AcceptFriendRequest(user, friend);
        return if accepted == 0 then 1 else -1;
      }
      if sameDirection == 0 || user !in UserIds(users) || friend !in UserIds(users) {
        return -1;
      }
      friends := friends + [FriendRow(user, friend, false)];
      return 0;
    }

    /** `db_accept_friend_request` */
    method AcceptFriendRequest(me: int, friend: int) returns (rc: int)
      modifies this`friends
      ensures (rc, friends) == Friends.Accept(old(friends), me, friend)
    {
      var accepted := Status(friends, friend, me);
      if accepted == -1 {
        return -1;
      }
      if accepted == 1 {
        return -2;
      }
      friends := SetAccepted(friends, friend, me);
      friends := ErasePending(friends, me, friend);
      return 0;
    }

    /** `db_remove_friendship` */
    method RemoveFriendship(user: int, friend: int) returns (rc: int)
      modifies this`friends
      ensures (rc, friends) == Remove(old(friends), user, friend)
    {
      if Status(friends, user, friend) != 1 && Status(friends, friend, user) != 1 {
        return -1;
      }
      friends := EraseBoth(friends, user, friend);
      return 0;
    }

    /** `db_reject_friend_request` */
    method RejectFriendRequest(me: int, sender: int) returns (rc: int)
      requires TableOk(friends)
      modifies this`friends
      ensures (rc, friends) == Reject(old(friends), me, sender)
    {
      RowsOfPair(friends, sender, me);
      if FriendRow(sender, me, false) !in friends {
        return -1;
      }
      friends := ErasePending(friends, sender, me);
      return 0;
    }

    // ---------------------------------------------------------- servers and channels

    /** `db_join_server` */
    method JoinServer(server: int, user: int, admin: bool) returns (rc: int)
      modifies this`members
      ensures (rc, Tables()) == Store.InsertMember(old(Tables()), UserIds(users), server, user, admin)
    {
      if Store.IsMember(Tables(), server, user) || server !in Store.ServerIds(servers) || user !in UserIds(users) {
        return -1;
      }
      members := members + [Store.MemberRow(server, user, admin)];
      return 0;
    }

    /** `db_create_server`: the server, then its administrator. */
    method CreateServer(name: string, user: int) returns (rc: int)
      modifies this`servers, this`members
      ensures (rc, Tables()) == Store.CreateServer(old(Tables()), UserIds(users), name, user)
    {
      if name in Map((x: Store.ServerRow) => x.name, servers) {
        return -1;
      }
      var id := NextId(Store.ServerIds(servers));
      servers := servers + [Store.ServerRow(id, name)];
      rc := JoinServer(id, user, true);
    }

    /** `db_leave_server` */
    method LeaveServer(server: int, user: int)
      modifies this`members
      ensures Tables() == Store.DeleteMember(old(Tables()), server, user)
    {
      members := Filter((m: Store.MemberRow) => !(m.server == server && m.user == user), members);
    }

    /** `db_user_is_server_admin` */
    method UserIsServerAdmin(server: int, user: int) returns (rc: int, admin: bool)
      ensures rc == if Store.IsMember(Tables(), server, user) then 0 else -1
      ensures rc == 0 && admin <==> Store.IsAdmin(Tables(), server, user)
    {
      admin := Store.MemberRow(server, user, true) in members;
      rc := if admin || Store.MemberRow(server, user, false) in members then 0 else -1;
    }

    /** `db_delete_server`: the rows that refer to a deleted row go first, messages before channels. */
    method DeleteServer(server: int, user: int) returns (rc: int)
      modifies this`servers, this`members, this`channels, this`messages
      ensures rc == if Store.IsMember(old(Tables()), server, user) then 0 else -1
      ensures Tables() == if rc == 0 then Store.DeleteServer(old(Tables()), server) else old(Tables())
    {
      var admin: bool;
      rc, admin := UserIsServerAdmin(server, user);
      if rc == -1 {
        return;
      }
      var doomed := Store.ChannelIds(Store.ChannelsOf(Tables(), server));
      messages := Filter((m: Store.MessageRow) => m.channel !in doomed, messages);
      channels := Filter((c: Store.ChannelRow) => c.server != server, channels);
      members := Filter((m: Store.MemberRow) => m.server != server, members);
      servers := Filter((x: Store.ServerRow) => x.id != server, servers);
    }

    /** `db_kick_server_member` */
    method KickServerMember(server: int, user: int) returns (rc: int)
      modifies this`members
      ensures rc == if Store.IsMember(old(Tables()), server, user) then 0 else -1
      ensures Tables() == if rc == 0 then Store.DeleteMember(old(Tables()), server, user) else old(Tables())
    {
      var admin: bool;
      rc, admin := UserIsServerAdmin(server, user);
      if rc == -1 {
        return;
      }
      members := Filter((m: Store.MemberRow) => !(m.server == server && m.user == user), members);
    }

    /** `db_create_channel` */
    method CreateChannel(server: int, name: string) returns (rc: int, id: int)
      modifies this`channels
      ensures (rc, Tables()) == Store.CreateChannel(old(Tables()), server, name)
      ensures rc == 0 ==> id == NextId(Store.ChannelIds(old(channels)))
    {
      if server !in Store.ServerIds(servers) || exists c :: c in channels && c.server == server && c.name == name {
        return -1, 0;
      }
      id := NextId(Store.ChannelIds(channels));
      channels := channels + [Store.ChannelRow(id, server, name)];
      return 0, id;
    }

    /** `db_delete_channel` */
    method DeleteChannel(channel: int)
      modifies this`channels, this`messages
      ensures Tables() == Store.DeleteChannel(old(Tables()), channel)
    {
      messages := Filter((m: Store.MessageRow) => m.channel != channel, messages);
      channels := Filter((c: Store.ChannelRow) => c.id != channel, channels);
    }

    /** `db_get_channel_server_id` */
    method GetChannelServerId(channel: int) returns (rc: int, server: int)
      ensures rc == if channel in Store.ChannelIds(channels) then 0 else -1
      ensures rc == 0 ==> server == Store.ServerOfChannel(channels, channel)
    {
      rc := if channel in Store.ChannelIds(channels) then 0 else -1;
      server := Store.ServerOfChannel(channels, channel);
    }

    // ---------------------------------------------------------- messages

    /** `db_save_message` */
    method SaveMessage(channel: int, user: int, text: string) returns (rc: int)
      modifies this`messages
      ensures (rc, Tables()) == Store.SaveMessage(old(Tables()), UserIds(users), channel, user, text)
    {
      if channel !in Store.ChannelIds(channels) || user !in UserIds(users) {
        return -1;
      }
      messages := messages + [Store.MessageRow(NextId(Store.MessageIds(messages)), channel, user, text)];
      return 0;
    }

    /** `db_save_direct_message` */
    method SaveDirectMessage(sender: int, receiver: int, text: string)
      modifies this`dms
      ensures dms == if sender in UserIds(users) && receiver in UserIds(users)
                     then old(dms) + [DmRow(NextId(DmIds(old(dms))), sender, receiver, text)] else old(dms)
    {
      if sender in UserIds(users) && receiver in UserIds(users) {
        dms := dms + [DmRow(NextId(DmIds(dms)), sender, receiver, text)];
      }
    }
  }

  // ------------------------------------------------------------ the rows that join two users

  /** The selected rows tell the status in both directions. */
  lemma SelectedStatus(t: seq<FriendRow>, user: int, friend: int)
    ensures var rows := Filter((r: FriendRow) => r.Joins(user, friend), t);
            Status(rows, user, friend) == Status(t, user, friend) && Status(rows, friend, user) == Status(t, friend, user)
  {
    FilterMembers((r: FriendRow) => r.Joins(user, friend), t);
  }

  lemma NoSelfRows(t: seq<FriendRow>, user: int)
    requires TableOk(t)
    ensures Status(t, user, user) == -1
  {}

  /** A step through the selected rows: the row at hand is the only one in its direction. */
  lemma LastRowDecides(t: seq<FriendRow>, rows: seq<FriendRow>, k: nat)
    requires TableOk(t) && k < |rows| && forall r :: r in rows ==> r in t
    ensures forall u, f :: Status(rows[..k + 1], u, f)
              == if rows[k].From(u, f) then (if rows[k].accepted then 1 else 0) else Status(rows[..k], u, f)
    ensures rows[k].user != rows[k].friend
  {
    assert rows[..k + 1] == rows[..k] + [rows[k]] && rows[k] in rows;
    forall u, f | rows[k].From(u, f)
      ensures Status(rows[..k + 1], u, f) == if rows[k].accepted then 1 else 0
    {
      if FriendRow(u, f, true) in rows[..k + 1] && FriendRow(u, f, false) in rows[..k + 1] {
        OneRowPerPair(t, FriendRow(u, f, true), FriendRow(u, f, false));
      }
    }
  }
}
