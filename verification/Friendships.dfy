/** Friendships over whole runs of the server: each pair of users lives the life of the pair machine. */
module Friendships {
  import opened Names
  import opened Protocol
  import opened Friends
  import Store
  import opened Listing
  import opened Server
  import opened Invariants

  /** The request to the friends table behind an event: one or none. */
  function FriendOps(s: State, e: Event): (ops: seq<FriendOp>)
    requires Enabled(s, e)
    ensures |ops| <= 1
  {
    if e.Request? && e.packet.payload.Social? && s.sessions[e.i].authenticated && IsFriendAction(e.packet.payload.action)
       && NameTaken(s.users, e.packet.payload.name)
    then [FriendOp(VerbOf(e.packet.payload.action), s.sessions[e.i].id, IdOf(s.users, e.packet.payload.name), s.Ids())]
    else []
  }

  /** All of them, in order. */
  function RequestsIn(s: State, es: seq<Event>): seq<FriendOp>
    requires Runs(s, es)
    decreases |es|
  {
    if es == [] then [] else FriendOps(s, es[0]) + RequestsIn(Step(s, es[0]), es[1..])
  }

  lemma OneRequest(op: FriendOp, t: seq<FriendRow>)
    ensures RunRequests([op], t) == Perform(op, t).1
  {}

  lemma {:induction false} RequestsAppend(a: seq<FriendOp>, b: seq<FriendOp>, t: seq<FriendRow>)
    ensures RunRequests(a + b, t) == RunRequests(b, RunRequests(a, t))
  {
    hide Perform;
    if b == [] {
      assert a + b == a;
    } else {
      RequestsAppend(a, b[..|b| - 1], t);
      assert (a + b)[..|a + b| - 1] == a + b[..|b| - 1];
    }
  }

  /** An event changes the friends table by its request and in no other way. */
  lemma StepPerformsRequests(s: State, e: Event)
    requires Enabled(s, e)
    ensures Step(s, e).friends == RunRequests(FriendOps(s, e), s.friends)
  {
    hide Perform, NotifyFriends, NotifyJoined, NotifyUsers, JoinedServers, Store.Perform, NotifyMembers;
    var ops := FriendOps(s, e);
    if ops == [] {
      NoRequest(s, e);
    } else {
      OneRequest(ops[0], s.friends);
      assert ops == [ops[0]];
      RequestStep(s, e);
    }
  }

  lemma NoRequest(s: State, e: Event)
    requires Enabled(s, e) && FriendOps(s, e) == []
    ensures Step(s, e).friends == s.friends
  {
    hide Perform, NotifyFriends, NotifyJoined, NotifyUsers, JoinedServers, Store.Perform, NotifyMembers, NameTaken, IdOf;
  }

  lemma RequestStep(s: State, e: Event)
    requires Enabled(s, e) && FriendOps(s, e) != []
    ensures Step(s, e).friends == Perform(FriendOps(s, e)[0], s.friends).1
  {
    hide NotifyFriends, NameTaken, IdOf, Ask, Friends.Accept, Remove, Reject;
  }

  /**
   In every run each pair of users is what the requests between the two alone have made of it, step by
   step of the pair machine, and the table holds at most one row for the pair and none for oneself.
   */
  lemma {:induction false} PairsInEveryRun(s: State, es: seq<Event>, a: int, b: int)
    requires Good(s) && Runs(s, es)
    ensures TableOk(Run(s, es).friends)
    ensures PairOf(Run(s, es).friends, a, b)
            == PairRun(PairOf(s.friends, a, b), Filter((op: FriendOp) => op.About(a, b), RequestsIn(s, es)))
  {
    hide Good, Run, Runs, PairRun, PairOf, Filter, TableOk;
    RunPerformsRequests(s, es);
    GoodTable(s);
    RunKeepsTable(RequestsIn(s, es), s.friends);
    RunIsPairByPair(RequestsIn(s, es), s.friends, a, b);
  }

  lemma GoodTable(s: State)
    requires Good(s)
    ensures TableOk(s.friends)
  {}

  lemma {:induction false} RunPerformsRequests(s: State, es: seq<Event>)
    requires Runs(s, es)
    ensures Run(s, es).friends == RunRequests(RequestsIn(s, es), s.friends)
    decreases |es|
  {
    hide Step, FriendOps, Enabled;
    if es != [] {
      StepPerformsRequests(s, es[0]);
      RunPerformsRequests(Step(s, es[0]), es[1..]);
      RequestsAppend(FriendOps(s, es[0]), RequestsIn(Step(s, es[0]), es[1..]), s.friends);
    }
  }
}
