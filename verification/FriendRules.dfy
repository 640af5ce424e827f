/** What each friend request returns and what it leaves, over the rows of the two users. */
module FriendRules {
  import opened Names
  import opened Friends

  predicate AreFriends(t: seq<FriendRow>, a: int, b: int) {
    FriendRow(a, b, true) in t || FriendRow(b, a, true) in t
  }

  /** The pending row of one request becomes the row of a friendship. */
  ghost predicate Befriended(t: seq<FriendRow>, t': seq<FriendRow>, from: int, to: int) {
    exists k :: 0 <= k < |t| && t[k] == FriendRow(from, to, false) && t' == t[k := FriendRow(from, to, true)]
  }

  /** One row goes. */
  ghost predicate RowGone(t: seq<FriendRow>, t': seq<FriendRow>, r: FriendRow) {
    exists k :: 0 <= k < |t| && t[k] == r && t' == Without(t, k)
  }

  lemma AcceptIs(t: seq<FriendRow>, me: int, f: int)
    requires TableOk(t) && FriendRow(f, me, false) in t
    ensures Accept(t, me, f).0 == 0 && Befriended(t, Accept(t, me, f).1, f, me)
  {
    RowsOfPair(t, f, me);
    var k :| 0 <= k < |t| && t[k] == FriendRow(f, me, false);
    var t1 := SetAccepted(t, f, me);
    forall i | 0 <= i < |t| && i != k ensures !t[i].Joins(f, me) {
      assert OtherPair(t[if i < k then i else k], t[if i < k then k else i]);
    }
    assert t1 == t[k := FriendRow(f, me, true)];
    FilterEverything((r: FriendRow) => !(r.From(me, f) && !r.accepted), t1);
  }

  lemma RejectIs(t: seq<FriendRow>, me: int, f: int)
    requires TableOk(t) && FriendRow(f, me, false) in t
    ensures Reject(t, me, f).0 == 0 && RowGone(t, Reject(t, me, f).1, FriendRow(f, me, false))
  {
    RowsOfPair(t, f, me);
    var k :| 0 <= k < |t| && t[k] == FriendRow(f, me, false);
    forall i | 0 <= i < |t| && i != k ensures !t[i].Joins(f, me) {
      assert OtherPair(t[if i < k then i else k], t[if i < k then k else i]);
    }
    FilterSkipsOne((r: FriendRow) => !(r.From(f, me) && !r.accepted), t, k);
  }

  lemma RemoveIs(t: seq<FriendRow>, u: int, f: int, r: FriendRow)
    requires TableOk(t) && r in t && r.accepted && (r == FriendRow(u, f, true) || r == FriendRow(f, u, true))
    ensures Remove(t, u, f).0 == 0 && RowGone(t, Remove(t, u, f).1, r)
  {
    var k :| 0 <= k < |t| && t[k] == r;
    forall i | 0 <= i < |t| && i != k ensures !t[i].Joins(u, f) {
      assert OtherPair(t[if i < k then i else k], t[if i < k then k else i]);
    }
    FilterSkipsOne((r: FriendRow) => !r.Joins(u, f), t, k);
  }

  /** Every friend request, over the rows of the two: its code and the table it leaves. */
  lemma PerformIs(t: seq<FriendRow>, known: seq<int>, a: int, b: int)
    requires TableOk(t) && a in known && b in known
    ensures var (rc, t') := Perform(FriendOp(Asks, a, b, known), t);
            if a == b then (rc, t') == (-1, t)
            else if AreFriends(t, a, b) then (rc, t') == (-2, t)
            else if FriendRow(b, a, false) in t then rc == 1 && Befriended(t, t', b, a)
            else if FriendRow(a, b, false) in t then (rc, t') == (-1, t)
            else (rc, t') == (0, t + [FriendRow(a, b, false)])
    ensures var (rc, t') := Perform(FriendOp(Accepts, a, b, known), t);
            if FriendRow(b, a, true) in t then (rc, t') == (-2, t)
            else if FriendRow(b, a, false) in t then rc == 0 && Befriended(t, t', b, a)
            else (rc, t') == (-1, t)
    ensures var (rc, t') := Perform(FriendOp(Rejects, a, b, known), t);
            if FriendRow(b, a, false) in t then rc == 0 && RowGone(t, t', FriendRow(b, a, false)) else (rc, t') == (-1, t)
    ensures var (rc, t') := Perform(FriendOp(Removes, a, b, known), t);
            if AreFriends(t, a, b) then rc == 0 && (RowGone(t, t', FriendRow(a, b, true)) || RowGone(t, t', FriendRow(b, a, true)))
            else (rc, t') == (-1, t)
  {
    RowsOfPair(t, a, b);
    RowsOfPair(t, b, a);
    hide Befriended, RowGone, TableOk, Accept, Reject, EraseBoth;
    if FriendRow(b, a, false) in t {
      AcceptIs(t, a, b);
      RejectIs(t, a, b);
    } else {
      NothingPending(t, a, b);
    }
    if FriendRow(a, b, true) in t {
      RemoveIs(t, a, b, FriendRow(a, b, true));
    }
    if FriendRow(b, a, true) in t {
      RemoveIs(t, a, b, FriendRow(b, a, true));
    }
  }

  lemma NothingPending(t: seq<FriendRow>, me: int, f: int)
    requires FriendRow(f, me, false) !in t
    ensures Accept(t, me, f) == (if FriendRow(f, me, true) in t then -2 else -1, t)
    ensures Reject(t, me, f) == (-1, t)
  {}
}
