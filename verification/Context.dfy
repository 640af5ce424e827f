/**
 The `ServerContext` that all handlers share: the array of client records, the database and the
 sockets.  `State` is what the array and the database amount to.
 */
module Context {
  import opened Codec
  import opened Names
  import opened Protocol
  import opened Friends
  import Store
  import opened Stream
  import opened Listing
  import opened Server
  import opened Database

  /** A record of the client array: the session and the packet that is being received. */
  datatype ClientNode = ClientNode(session: Server.Session, buffer: seq<byte>, offset: nat)

  /** The part of a record that the handlers leave alone. */
  datatype Pipe = Pipe(buffer: seq<byte>, offset: nat)

  class ServerContext {
    const clients: array<ClientNode>
    var clientCount: nat
    const db: DbContext
    const serverFd: int
    const little: bool
    /** What went out on the sockets. */
    var sent: seq<Out>
    /** What is still to come in on them. */
    var sockets: map<int, Inbound>
    var masterSet: set<int>
    var maxFd: int
    /** For each connection: the bytes read from it so far, and the packets handed on. */
    ghost var heard: map<int, seq<byte>>
    ghost var taken: map<int, seq<seq<byte>>>
    /** For each connection: all the bytes that its peer will ever have sent. */
    ghost var streams: map<int, seq<byte>>

    ghost predicate Valid()
      reads this`clientCount
    {
      clients.Length == MAX_CLIENTS && clientCount <= MAX_CLIENTS
    }

    ghost function Nodes(): seq<ClientNode>
      reads this`clientCount, clients
      requires Valid()
    {
      clients[..clientCount]
    }

    function Sessions(): (r: seq<Server.Session>)
      reads this`clientCount, clients
      requires Valid()
      ensures |r| == clientCount
    {
      Map((c: ClientNode) => c.session, clients[..clientCount])
    }

    ghost function Pipes(): (r: seq<Pipe>)
      reads this`clientCount, clients
      requires Valid()
      ensures |r| == clientCount
    {
      Map((c: ClientNode) => Pipe(c.buffer, c.offset), clients[..clientCount])
    }

    ghost function State(): Server.State
      reads this`clientCount, this`sent, clients, db
      requires Valid()
    {
      Server.State(Sessions(), db.users, db.friends, db.Tables(), db.dms, sent)
    }

    /** A context with nobody connected, on an open database. */
    constructor (db: DbContext, serverFd: int, little: bool)
      ensures Valid() && clientCount == 0 && sent == [] && this.db == db && this.serverFd == serverFd && this.little == little
      ensures masterSet == {serverFd} && maxFd == serverFd && sockets == map[] && heard == map[] && taken == map[] && streams == map[] && fresh(clients)
    {
      clients := new ClientNode[MAX_CLIENTS](i => ClientNode(Server.Session(0, 0, false, "", -1), seq(PACKET_SIZE, j => 0), 0));
      clientCount, sent, sockets, masterSet, maxFd := 0, [], map[], {serverFd}, serverFd;
      heard, taken, streams := map[], map[], map[];
      this.db, this.serverFd, this.little := db, serverFd, little;
    }

    // ---------------------------------------------------------- elementary steps

    /** `packet_send`, as far as the log of the sockets is concerned. */
    method PacketSend(fd: int, p: Packet)
      modifies this`sent
      ensures sent == old(sent) + [Sent(fd, p)]
    {
      sent := sent + [Sent(fd, p)];
    }

    /** Overwrites one record. */
    method SetNode(i: nat, node: ClientNode)
      requires Valid() && i < clientCount
      modifies clients
      ensures Nodes() == old(Nodes())[i := node]
    {
      clients[i] := node;
    }

    /** Overwrites the session fields of one record. */
    method SetSession(i: nat, c: Server.Session)
      requires Valid() && i < clientCount
      modifies clients
      ensures Sessions() == old(Sessions())[i := c]
      ensures Pipes() == old(Pipes())
    {
      clients[i] := clients[i].(session := c);
    }

    /** The record of a socket: every handler that is given a descriptor looks it up like this. */
    method FindClient(fd: int, ghost i: nat) returns (k: nat)
      requires Valid() && i < clientCount && Sessions()[i].fd == fd
      requires forall j :: 0 <= j < clientCount && j != i ==> Sessions()[j].fd != fd
      ensures k == i
    {
      k := 0;
      while k < clientCount
        invariant 0 <= k <= i
      {
        assert clients[k].session == Sessions()[k];
        if clients[k].session.fd == fd {
          break;
        }
        k := k + 1;
      }
    }

    /** `client_is_online` */
    method ClientIsOnline(user: int) returns (online: bool)
      requires Valid()
      ensures online == Online(Sessions(), user)
    {
      for i := 0 to clientCount
        invariant forall k :: 0 <= k < i ==> !Sessions()[k].Is(user)
      {
        var c := clients[i].session;
        assert c == Sessions()[i];
        if c.fd > 0 && c.id == user && c.authenticated {
          return true;
        }
      }
      return false;
    }
  }

  // ------------------------------------------------------------ streams into one socket

  /** One more item of a stream. */
  lemma IntoTake(fd: int, ps: seq<Packet>, k: nat)
    requires k < |ps|
    ensures Into(fd, ps[..k + 1]) == Into(fd, ps[..k]) + [Sent(fd, ps[k])]
  {}
}
