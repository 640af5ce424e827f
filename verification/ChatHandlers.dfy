/** `server/tizcord_chat.c`: channel messages and direct messages. */
module ChatHandlers {
  import opened Names
  import opened Protocol
  import opened Friends
  import Store
  import opened Listing
  import opened Server
  import opened Database
  import opened Context
  import opened AuthHandlers

  /** `channel_broadcast`, to every connection. */
  method ChannelBroadcast(ctx: ServerContext, p: Packet)
    requires ctx.Valid()
    modifies ctx`sent
    ensures ctx.sent == old(ctx.sent) + Broadcast(ctx.Sessions(), p, ctx.clientCount)
  {
    for i := 0 to ctx.clientCount
      invariant ctx.sent == old(ctx.sent) + Broadcast(ctx.Sessions(), p, i)
    {
      assert ctx.clients[i].session == ctx.Sessions()[i];
      if ctx.clients[i].session.fd > 0 {
        ctx.PacketSend(ctx.clients[i].session.fd, p);
      }
    }
  }

  /** The whole history of a channel, one frame per message. */
  method SendChannelHistory(ctx: ServerContext, fd: int, channel: int)
    requires ctx.Valid()
    modifies ctx`sent
    ensures ctx.sent == old(ctx.sent) + Into(fd, ChannelStream(old(ctx.State()), channel))
  {
    var rows, index := Store.HistoryOf(ctx.db.Tables(), channel), 0;
    ghost var items := ChannelItems(ctx.db.users, channel, rows);
    ctx.PacketSend(fd, ChannelFrame(LIST_FRAME_START));
    while index < |rows|
      invariant 0 <= index <= |rows|
      invariant ctx.sent == old(ctx.sent) + [Sent(fd, ChannelFrame(LIST_FRAME_START))] + Into(fd, items[..index])
    {
      var m := rows[index];
      ctx.PacketSend(fd, Packet(0, index, 0, LIST_FRAME_MIDDLE,
                                Channel(CHANNEL_MESSAGE, 0, 0, channel, Truncated(NameOf(ctx.db.users, m.user), NAME_LEN), m.id,
                                        Truncated(m.text, MESSAGE_LEN))));
      IntoTake(fd, items, index);
      index := index + 1;
    }
    assert items[..index] == items;
    ctx.PacketSend(fd, ChannelFrame(LIST_FRAME_END));
    Framing(fd, ChannelFrame(LIST_FRAME_START), items, ChannelFrame(LIST_FRAME_END));
  }

  lemma Framing(fd: int, start: Packet, items: seq<Packet>, end: Packet)
    ensures Into(fd, [start] + items + [end]) == [Sent(fd, start)] + Into(fd, items) + [Sent(fd, end)]
  {}

  /** The message arm of `handle_channel_message`: to everybody first, then to the table. */
  method PostMessage(ctx: ServerContext, k: nat, p: Packet)
    requires ctx.Valid() && k < ctx.clientCount && IsMessage(p)
    modifies ctx`sent, ctx.db`messages
    ensures ctx.State() == HandleChannel(old(ctx.State()), k, p)
  {
    hide Broadcast, Store.SaveMessage;
    var c := ctx.clients[k].session;
    assert c == ctx.Sessions()[k];
    ChannelBroadcast(ctx, Stamped(p, c));
    var rc := ctx.db.SaveMessage(p.payload.channel, c.id, p.payload.text);
  }

  /** The creation arm: only an administrator of the server may. */
  method CreateChannel(ctx: ServerContext, k: nat, p: Packet)
    requires ctx.Valid() && k < ctx.clientCount && p.payload.Channel? && p.payload.action == CHANNEL_CREATE
    modifies ctx`sent, ctx.db`channels
    ensures ctx.State() == HandleChannel(old(ctx.State()), k, p)
  {
    hide Store.CreateChannel, NextId, Truncated;
    var c, q := ctx.clients[k].session, p.payload;
    assert c == ctx.Sessions()[k];
    var found, admin := ctx.db.UserIsServerAdmin(q.server, c.id);
    if found == 0 && admin {
      var rc, id := ctx.db.CreateChannel(q.server, q.name);
      if rc == 0 {
        ctx.PacketSend(c.fd, Plain(Channel(CHANNEL_CREATE, q.server, RESP_OK, id, Truncated(q.name, NAME_LEN), 0, "")));
      } else {
        ctx.PacketSend(c.fd, Plain(Channel(CHANNEL_CREATE, q.server, RESP_ERR_DB, 0, "", 0, "")));
      }
    } else {
      ctx.PacketSend(c.fd, Plain(Channel(CHANNEL_CREATE, q.server, RESP_ERR_UNAUTHORIZED, 0, "", 0, "")));
    }
  }

  /** The deletion arm: only an administrator of the channel's server may. */
  method DeleteChannel(ctx: ServerContext, k: nat, p: Packet)
    requires ctx.Valid() && k < ctx.clientCount && p.payload.Channel? && p.payload.action == CHANNEL_DELETE
    modifies ctx`sent, ctx.db`channels, ctx.db`messages
    ensures ctx.State() == HandleChannel(old(ctx.State()), k, p)
  {
    hide Store.DeleteChannel, Store.ServerOfChannel;
    var c, q := ctx.clients[k].session, p.payload;
    assert c == ctx.Sessions()[k];
    var status := RESP_ERR_NOT_FOUND;
    var rc, server := ctx.db.GetChannelServerId(q.channel);
    if rc == 0 {
      var found, admin := ctx.db.UserIsServerAdmin(server, c.id);
      if found == 0 && admin {
        ctx.db.DeleteChannel(q.channel);
        status := RESP_OK;
      } else {
        status := RESP_ERR_UNAUTHORIZED;
      }
    }
    ctx.PacketSend(c.fd, Plain(Channel(CHANNEL_DELETE, 0, status, q.channel, "", 0, "")));
  }

  /** `handle_channel_message` */
  method HandleChannelMessage(ctx: ServerContext, fd: int, p: Packet, ghost i: nat)
    requires ctx.Valid() && IsClient(ctx, i, fd) && p.payload.Channel?
    modifies ctx`sent, ctx.db`channels, ctx.db`messages
    ensures ctx.State() == HandleChannel(old(ctx.State()), i, p)
  {
    hide ChannelStream, Broadcast, Store.Perform;
    var k := ctx.FindClient(fd, i);
    if p.payload.action == CHANNEL_MESSAGE {
      PostMessage(ctx, k, p);
    } else if p.payload.action == CHANNEL_CREATE {
      CreateChannel(ctx, k, p);
    } else if p.payload.action == CHANNEL_DELETE {
      DeleteChannel(ctx, k, p);
    } else if p.payload.action == CHANNEL_HISTORY_REQUEST {
      SendChannelHistory(ctx, fd, p.payload.channel);
    }
  }

  /** The history of two users, one frame per message; `direct_message_history_cb` compares names. */
  method SendDmHistory(ctx: ServerContext, c: Session, friend: int)
    modifies ctx`sent
    ensures ctx.sent == old(ctx.sent) + Into(c.fd, DmStream(ctx.db.users, c, friend, History(ctx.db.dms, c.id, friend)))
  {
    hide History, NameOf;
    var rows, index := History(ctx.db.dms, c.id, friend), 0;
    ghost var items := DmItems(ctx.db.users, c, friend, rows);
    ctx.PacketSend(c.fd, DmFrame(LIST_FRAME_START, friend));
    while index < |rows|
      invariant 0 <= index <= |rows|
      invariant ctx.sent == old(ctx.sent) + [Sent(c.fd, DmFrame(LIST_FRAME_START, friend))] + Into(c.fd, items[..index])
    {
      var m, sender := rows[index], friend;
      if NameOf(ctx.db.users, m.sender) == c.username {
        sender := c.id;
      }
      ctx.PacketSend(c.fd, Packet(sender, index, 0, LIST_FRAME_MIDDLE, Dm(DM_MESSAGE, 0, friend, m.id, Truncated(m.text, MESSAGE_LEN))));
      IntoTake(c.fd, items, index);
      index := index + 1;
    }
    assert items[..index] == items;
    ctx.PacketSend(c.fd, DmFrame(LIST_FRAME_END, friend));
    Framing(c.fd, DmFrame(LIST_FRAME_START, friend), items, DmFrame(LIST_FRAME_END, friend));
  }

  /** The delivery loop: it stops at the first record with the recipient's id. */
  method ForwardDm(ctx: ServerContext, receiver: int, p: Packet)
    requires ctx.Valid()
    modifies ctx`sent
    ensures var k := FirstWithId(ctx.Sessions(), receiver, 0);
            ctx.sent == if k < 0 then old(ctx.sent) else old(ctx.sent) + [Sent(ctx.Sessions()[k].fd, p)]
  {
    for j := 0 to ctx.clientCount
      invariant ctx.sent == old(ctx.sent)
      invariant FirstWithId(ctx.Sessions(), receiver, 0) == FirstWithId(ctx.Sessions(), receiver, j)
    {
      assert ctx.clients[j].session == ctx.Sessions()[j];
      if ctx.clients[j].session.fd > 0 && ctx.clients[j].session.id == receiver {
        ctx.PacketSend(ctx.clients[j].session.fd, p);
        return;
      }
    }
  }

  /** `handle_private_message`: saved, then forwarded, or the history is streamed. */
  method HandlePrivateMessage(ctx: ServerContext, fd: int, p: Packet, ghost i: nat)
    requires ctx.Valid() && IsClient(ctx, i, fd) && p.payload.Dm?
    modifies ctx`sent, ctx.db`dms
    ensures ctx.State() == HandleDm(old(ctx.State()), i, p)
  {
    hide DmStream, History, NextId, FirstWithId;
    ghost var s := ctx.State();
    var receiver := p.payload.recipient;
    var k := ctx.FindClient(fd, i);
    var c := ctx.clients[k].session;
    assert c == ctx.Sessions()[k];
    if p.payload.action == DM_MESSAGE {
      ctx.db.SaveDirectMessage(c.id, receiver, p.payload.text);
      assert ctx.State() == SaveDm(s, c.id, receiver, p.payload.text);
      ForwardDm(ctx, receiver, p.(sender := c.id));
    } else if p.payload.action == DM_HISTORY_REQUEST {
      SendDmHistory(ctx, c, receiver);
    }
  }
}
