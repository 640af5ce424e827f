/** The arrays of `client/ui.c` and the callbacks that update them in place. */
module ClientUi {
  import opened Names
  import opened Protocol
  import opened Friends
  import opened ClientView
  import opened LoginForm

  class Ui {
    const allUsers: array<UiUser>
    var allUserCount: nat
    const friends: array<Slot>
    var friendCount: nat
    var form: string
    const users: array<string>
    var userCount: nat
    var currentUser: int

    ghost predicate Valid()
      reads this, friends
    {
      && users.Length == MAX_USERS && userCount <= MAX_USERS && -1 <= currentUser < userCount && |form| <= NAME_LEN
      && allUsers.Length == MAX_ALL_USERS && allUserCount <= MAX_ALL_USERS
      && friends.Length == MAX_FRIENDS && friendCount <= MAX_FRIENDS
      && forall k :: 0 <= k < friends.Length ==> |friends[k].messages| <= MAX_MESSAGES
    }

    /** The arrays as the value that the replication theorems are about. */
    ghost function View(): (v: ClientView.View)
      reads this, allUsers, friends, users
      requires Valid()
      ensures ViewOk(v) && |v.names| == userCount
    {
      ClientView.View(allUsers[..allUserCount], friends[..], friendCount, form, users[..userCount], currentUser)
    }

    constructor ()
      ensures Valid() && View() == Blank() && fresh(allUsers) && fresh(friends) && fresh(users)
    {
      allUsers := new UiUser[MAX_ALL_USERS](k => UiUser(0, "", "", 0));
      friends := new Slot[MAX_FRIENDS](k => Slot(0, "", 0, []));
      users := new string[MAX_USERS](k => "");
      allUserCount, friendCount, userCount, currentUser, form := 0, 0, 0, -1, "";
      new;
      assert friends[..] == Blank().slots;
    }

    // ---------------------------------------------------------- the user list

    /** One exchange of the sort. */
    method SwapUsers(i: nat, j: nat)
      requires Valid() && i < j < allUserCount
      modifies allUsers
      ensures allUsers[..allUserCount] == Swap(old(allUsers[..allUserCount]), i, j)
    {
      ghost var was := allUsers[..allUserCount];
      var tmp := allUsers[i];
      allUsers[i] := allUsers[j];
      allUsers[j] := tmp;
      assert allUsers[..allUserCount] == was[i := was[j]][j := was[i]];
    }

    /** The nested loops: online users first, then by name without regard to case. */
    method SortUsers()
      requires Valid()
      modifies allUsers
      ensures allUsers[..allUserCount] == ExchangeFrom(old(allUsers[..allUserCount]), 0)
      ensures Sorted(allUsers[..allUserCount]) && multiset(allUsers[..allUserCount]) == multiset(old(allUsers[..allUserCount]))
    {
      hide Before, Swap, Exchange, ExchangeFrom;
      ghost var was := allUsers[..allUserCount];
      ExchangeSorts(was, 0);
      var i := 0;
      while i + 1 < allUserCount
        invariant 0 <= i
        invariant ExchangeFrom(allUsers[..allUserCount], i) == ExchangeFrom(was, 0)
      {
        ghost var start := allUsers[..allUserCount];
        ExchangeFromStep(start, i);
        var j := i + 1;
        while j < allUserCount
          invariant i < j <= allUserCount
          invariant Exchange(allUsers[..allUserCount], i, j) == Exchange(start, i, i + 1)
        {
          ghost var now := allUsers[..allUserCount];
          ExchangeStep(now, i, j);
          assert now[i] == allUsers[i] && now[j] == allUsers[j];
          if Before(allUsers[j], allUsers[i]) {
            SwapUsers(i, j);
          }
          j := j + 1;
        }
        ExchangeEnd(allUsers[..allUserCount], i);
        i := i + 1;
      }
      ExchangeFromStep(allUsers[..allUserCount], i);
    }

    method ReceiveUser(p: Packet)
      requires Valid() && p.payload.Social?
      modifies this`allUserCount, allUsers
      ensures Valid() && View() == ClientView.ReceiveUser(old(View()), p)
    {
      hide ExchangeFrom, Sorted;
      if p.frame == LIST_FRAME_START {
        allUserCount := 0;
      } else if p.frame == LIST_FRAME_MIDDLE && allUserCount < MAX_ALL_USERS {
        allUsers[allUserCount] := UiUser(p.payload.target, Truncated(p.payload.name, NAME_LEN),
                                         Truncated(p.payload.profile, STATUS_LEN), p.payload.status);
        allUserCount := allUserCount + 1;
      } else if p.frame == LIST_FRAME_END {
        SortUsers();
      }
    }

    /** The loop of the status arm stops at the first entry of the user. */
    method UpdateStatus(id: int, profile: string, online: int)
      requires Valid()
      modifies allUsers
      ensures allUsers[..allUserCount] == WithStatus(old(allUsers[..allUserCount]), id, profile, online)
    {
      hide WithStatus;
      ghost var was := allUsers[..allUserCount];
      for i := 0 to allUserCount
        invariant allUsers[..allUserCount] == was
        invariant WithStatus(was, id, profile, online) == was[..i] + WithStatus(was[i..], id, profile, online)
      {
        StatusStep(was, id, profile, online, i);
        assert allUsers[i] == was[i];
        if allUsers[i].id == id {
          allUsers[i] := allUsers[i].(profile := profile, online := online);
          return;
        }
      }
      StatusEnd(was, id, profile, online);
    }

    // ---------------------------------------------------------- friends and transcripts

    method ReceiveFriend(p: Packet)
      requires Valid() && p.payload.Social?
      modifies this`friendCount, friends
      ensures Valid() && View() == ClientView.ReceiveFriend(old(View()), p)
    {
      if p.frame == LIST_FRAME_START {
        friendCount := 0;
      } else if (p.frame == LIST_FRAME_MIDDLE || p.frame == LIST_FRAME_SINGLE) && friendCount < MAX_FRIENDS {
        friends[friendCount] := friends[friendCount].(id := p.payload.target, name := Truncated(p.payload.name, NAME_LEN),
                                                      kind := p.payload.status);
        friendCount := friendCount + 1;
      }
    }

    /** `ui_receive_dm_message` */
    method ReceiveDmMessage(p: Packet)
      requires Valid() && p.payload.Dm?
      modifies friends
      ensures Valid() && View() == ReceiveDm(old(View()), p)
    {
      hide Truncated;
      var k := -1;
      for i := 0 to friendCount
        invariant k == SlotOf(friends[..], p.sender, p.payload.recipient, i) == -1
      {
        if friends[i].id == p.sender || friends[i].id == p.payload.recipient {
          k := i;
          FoundSlot(friends[..], p.sender, p.payload.recipient, i, friendCount);
          break;
        }
      }
      if k == -1 {
        return;
      }
      var f := friends[k];
      if p.frame == LIST_FRAME_START {
        friends[k] := f.(messages := []);
        return;
      }
      if p.frame == LIST_FRAME_END {
        return;
      }
      if |f.messages| < MAX_MESSAGES {
        var author := if p.sender == f.id then f.name else if currentUser >= 0 then users[currentUser] else "Me";
        friends[k] := f.(messages := f.messages + [Message(Truncated(author, NAME_LEN), Truncated(p.payload.text, BODY_LEN))]);
      }
    }

    /** Enter in the input of the conversation in slot `k`: the text is sent, and shown at once if there is room. */
    method EnterMessage(k: nat, text: string) returns (sent: seq<string>)
      requires Valid() && k < MAX_FRIENDS && currentUser >= 0
      modifies friends
      ensures Valid() && View() == Echo(old(View()), k, text)
      ensures sent == if text == "" then [] else [text]
    {
      hide Truncated;
      if |text| == 0 {
        return [];
      }
      var f := friends[k];
      if |f.messages| < MAX_MESSAGES {
        friends[k] := f.(messages := f.messages + [Message(Truncated(users[currentUser], NAME_LEN), Truncated(text, BODY_LEN))]);
      }
      sent := [text];
    }

    // ---------------------------------------------------------- one packet

    /** The user edits the name in the login form. */
    method TypeName(name: string)
      requires Valid()
      modifies this`form
      ensures Valid() && View() == Advance(old(View()), Typing(name))
    {
      form := Truncated(name, NAME_LEN);
    }

    /** Enter in `handle_auth_input`: an empty name is not sent, and a name that is sent stays in the form. */
    method SubmitForm() returns (sent: seq<string>)
      requires Valid()
      ensures sent == if View().form != "" then [View().form] else []
    {
      if |form| == 0 {
        return [];
      }
      return [form];
    }

    /**
     `ui_handle_auth_response`.  The answer OK writes `users[user_count]`: the index leaves the array, which
     `overrun` reports, exactly when 16 names are stored.  What the C program does from then on is undefined.
     */
    method HandleAuthResponse(p: Packet) returns (overrun: bool)
      requires Valid() && p.payload.Auth?
      modifies this`allUserCount, this`friendCount, this`form, this`userCount, this`currentUser, users
      ensures Valid() && overrun == (IsWelcome(p) && old(userCount) == MAX_USERS)
      ensures View() == if overrun then old(View()) else Apply(old(View()), p)
    {
      var action, status := p.payload.action, p.payload.status;
      if action == AUTH_REGISTER || action == AUTH_LOGIN {
        if status == RESP_OK {
          if userCount >= users.Length {
            return true;
          }
          ghost var was := users[..userCount];
          users[userCount] := Truncated(form, NAME_LEN);
          currentUser := userCount;
          userCount := userCount + 1;
          form := "";
          assert users[..userCount] == was + [users[currentUser]];
        }
      } else if action == AUTH_LOGOUT {
        allUserCount, friendCount, currentUser, form := 0, 0, -1, "";
      }
      return false;
    }

    /** The arms of `process_network_packet` that touch the account, the user list, the friends or the transcripts. */
    method ProcessNetworkPacket(p: Packet) returns (overrun: bool)
      requires Valid()
      modifies this`allUserCount, this`friendCount, this`form, this`userCount, this`currentUser, allUsers, friends, users
      ensures Valid() && overrun == (IsWelcome(p) && old(userCount) == MAX_USERS)
      ensures View() == if overrun then old(View()) else Apply(old(View()), p)
    {
      overrun := false;
      hide ClientView.ReceiveUser, ClientView.ReceiveFriend, ReceiveDm, WithStatus, Truncated;
      match p.payload
      case Dm(action, _, _, _, _) =>
        if action == DM_MESSAGE {
          ReceiveDmMessage(p);
        }
      case Auth(_, _, _, _) =>
        overrun := HandleAuthResponse(p);
      case Social(presence, action, status, target, _, profile) =>
        if action == SOCIAL_LIST_FRIENDS {
          ReceiveFriend(p);
        } else if action == SOCIAL_LIST_USERS {
          ReceiveUser(p);
        } else if action == SOCIAL_UPDATE_STATUS && status == RESP_OK {
          UpdateStatus(target, Truncated(profile, STATUS_LEN), if presence == STATUS_ONLINE then 1 else 0);
        }
      case Server(_, _, _, _, _, _) =>
      case Channel(_, _, _, _, _, _, _) =>
    }

    /** One thing that happens to a client; `sent` is the name in the login or registration that it sends, if it sends one. */
    method TakeInput(x: Input) returns (overrun: bool, sent: seq<string>)
      requires Valid()
      modifies this`allUserCount, this`friendCount, this`form, this`userCount, this`currentUser, allUsers, friends, users
      ensures Valid() && overrun == (x.Arrival? && IsWelcome(x.packet) && old(userCount) == MAX_USERS)
      ensures View() == if overrun then old(View()) else Advance(old(View()), x)
      ensures sent == if x.Submit? && old(View()).form != "" then [old(View()).form] else []
    {
      hide Apply, IsWelcome;
      overrun, sent := false, [];
      match x
      case Typing(name) => TypeName(name);
      case Submit => sent := SubmitForm();
      case Arrival(p) => overrun := ProcessNetworkPacket(p);
    }

    /**
     A client from its start: everything that happens to it, one thing after the other, until an index leaves
     its array.  `sent` are the names in the logins and registrations that it sends.
     */
    method TakeInputs(xs: seq<Input>) returns (overrun: bool, sent: seq<string>)
      requires Valid() && View() == Blank()
      modifies this`allUserCount, this`friendCount, this`form, this`userCount, this`currentUser, allUsers, friends, users
      ensures Valid() && overrun == (Heard(xs).welcomes > MAX_USERS)
      ensures !overrun ==> View() == Client(xs) && sent == Submitted(xs)
    {
      hide Advance, Heard, Submitted, Client, IsWelcome;
      overrun, sent := false, [];
      NothingYet();
      for k := 0 to |xs|
        invariant Valid() && View() == Client(xs[..k]) && sent == Submitted(xs[..k]) && !overrun
      {
        OneMore(xs, k);
        ClientAppend(xs[..k], xs[k]);
        SubmittedAppend(xs[..k], xs[k]);
        WelcomesSoFar(xs, k);
        var name;
        overrun, name := TakeInput(xs[k]);
        if overrun {
          return;
        }
        sent := sent + name;
      }
      NamesCountWelcomes(xs);
      assert xs[..|xs|] == xs;
    }
  }

  /** The next input goes past the array exactly if it is an answer OK and 16 names are stored; then there are more than 16 in all. */
  lemma WelcomesSoFar(xs: seq<Input>, k: nat)
    requires k < |xs|
    ensures |Client(xs[..k]).names| == Heard(xs[..k]).welcomes
    ensures xs[k].Arrival? && IsWelcome(xs[k].packet) ==> |Client(xs[..k]).names| < Heard(xs).welcomes
  {
    OneMore(xs, k);
    HeardAppend(xs[..k], xs[k]);
    NamesCountWelcomes(xs[..k]);
    WelcomesGrow(xs, k + 1);
    hide Client, Heard, IsWelcome;
  }

  lemma NothingYet()
    ensures Client([]) == Blank() && Submitted([]) == []
  {}

  lemma {:induction false} WelcomesGrow(xs: seq<Input>, k: nat)
    requires k <= |xs|
    ensures Heard(xs[..k]).welcomes <= Heard(xs).welcomes
    decreases |xs|
  {
    hide Heard;
    if k < |xs| {
      var front := xs[..|xs| - 1];
      WelcomesGrow(front, k);
      assert front[..k] == xs[..k] && xs == front + [xs[|xs| - 1]];
      HeardAppend(front, xs[|xs| - 1]);
    } else {
      assert xs[..k] == xs;
    }
  }

  /** One step of the search for the entry whose status changes. */
  lemma StatusStep(was: seq<UiUser>, id: int, profile: string, online: int, i: nat)
    requires i < |was| && WithStatus(was, id, profile, online) == was[..i] + WithStatus(was[i..], id, profile, online)
    ensures WithStatus(was, id, profile, online)
            == if was[i].id == id then was[i := was[i].(profile := profile, online := online)]
               else was[..i + 1] + WithStatus(was[i + 1..], id, profile, online)
  {}

  lemma StatusEnd(was: seq<UiUser>, id: int, profile: string, online: int)
    requires WithStatus(was, id, profile, online) == was[..|was|] + WithStatus(was[|was|..], id, profile, online)
    ensures WithStatus(was, id, profile, online) == was
  {}

  lemma ExchangeStep(s: seq<UiUser>, i: nat, j: nat)
    requires i < j < |s|
    ensures Exchange(s, i, j) == Exchange(if Before(s[j], s[i]) then Swap(s, i, j) else s, i, j + 1)
  {}

  lemma ExchangeEnd(s: seq<UiUser>, i: nat)
    requires i < |s|
    ensures Exchange(s, i, |s|) == s
  {}

  lemma ExchangeFromStep(s: seq<UiUser>, i: nat)
    ensures ExchangeFrom(s, i) == if i + 1 >= |s| then s else ExchangeFrom(Exchange(s, i, i + 1), i + 1)
  {}

  /** The search stops at the slot that `SlotOf` names. */
  lemma {:induction false} FoundSlot(slots: seq<Slot>, a: int, b: int, i: nat, n: nat)
    requires i < n <= |slots| && SlotOf(slots, a, b, i) == -1 && (slots[i].id == a || slots[i].id == b)
    ensures SlotOf(slots, a, b, n) == i
    decreases n
  {}
}
