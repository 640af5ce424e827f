/**
 Direct messages as they happen: what one packet does to the transcripts of a client, and how a message
 that a user types becomes the same line at both ends and in the table.
 */
module LiveMessages {
  import opened Names
  import opened Protocol
  import opened Friends
  import opened Listing
  import opened ClientView
  import opened Server
  import opened Invariants
  import opened Traffic
  import opened FriendView
  import opened Accounts
  import opened Transcript
  import opened PanelView
  import opened Frames

  // ------------------------------------------------------------ one packet at a client

  predicate IsMessagePacket(p: Packet) {
    p.payload.Dm? && p.payload.action == DM_MESSAGE
  }

  /** Slot `k` is the first of those shown that belongs to the sender or to the recipient. */
  ghost predicate IsFirstSlot(v: View, p: Packet, k: int)
    requires p.payload.Dm? && v.friendCount <= |v.slots|
  {
    && 0 <= k < v.friendCount && (v.slots[k].id == p.sender || v.slots[k].id == p.payload.recipient)
    && forall j :: 0 <= j < k ==> v.slots[j].id != p.sender && v.slots[j].id != p.payload.recipient
  }

  /** The line that the packet stands for in a slot: its author is the friend or, for any other sender, the client's own user. */
  function LineFrom(v: View, slot: Slot, p: Packet): Message
    requires p.payload.Dm?
  {
    var author := if p.sender == slot.id then slot.name else if 0 <= v.current < |v.names| then v.names[v.current] else "Me";
    Message(Truncated(author, NAME_LEN), Truncated(p.payload.text, BODY_LEN))
  }

  /** Both views are the same but for the messages of slot `k`, which are now `ms`. */
  ghost predicate OnlyMessages(v: View, w: View, k: nat, ms: seq<Message>)
    requires k < |v.slots|
  {
    w == v.(slots := v.slots[k := v.slots[k].(messages := ms)])
  }

  /**
   A packet of a direct message at a client.  A START frame empties the transcript in its slot, an END frame
   does nothing, and any other, a live message among them, adds exactly its line while there is room for it;
   no other slot changes, and without a slot nothing does.
   */
  lemma MessageIsShown(v: View, p: Packet, k: int)
    requires ViewOk(v) && IsMessagePacket(p)
    ensures (forall j :: 0 <= j < v.friendCount ==> v.slots[j].id != p.sender && v.slots[j].id != p.payload.recipient) ==> Apply(v, p) == v
    ensures IsFirstSlot(v, p, k) ==>
              var slot := v.slots[k];
              if p.frame == LIST_FRAME_START then OnlyMessages(v, Apply(v, p), k, [])
              else if p.frame == LIST_FRAME_END || |slot.messages| == MAX_MESSAGES then Apply(v, p) == v
              else OnlyMessages(v, Apply(v, p), k, slot.messages + [LineFrom(v, slot, p)])
  {
    hide Truncated;
    var j := SlotOf(v.slots, p.sender, p.payload.recipient, v.friendCount);
    if IsFirstSlot(v, p, k) {
      assert j == k;
      assert v.slots[k] in v.slots;
    }
  }

  // ------------------------------------------------------------ from the sender to the recipient

  /** The packet as the recipient gets it: under the id of the session it came from. */
  function Delivered(p: Packet, c: Session): Packet {
    p.(sender := c.id)
  }

  /** A direct message to a user who is logged in puts exactly one packet on that user's connection, and nothing on any other. */
  lemma MessageIsDelivered(s: State, i: nat, p: Packet, hashOk: bool, j: nat)
    requires Good(s) && i < |s.sessions| && IsMessagePacket(p)
    requires j < |s.sessions| && s.sessions[j].authenticated && s.sessions[j].id == p.payload.recipient
    ensures var s' := Step(s, Request(i, p, hashOk));
            && s' == s.(dms := s'.dms, sent := s'.sent)
            && s'.sent == s.sent + [Sent(s.sessions[j].fd, Delivered(p, s.sessions[i]))]
            && PacketsFor(News(s.sent, s'.sent), s.sessions[j].fd) == [Delivered(p, s.sessions[i])]
  {
    var fd, s' := s.sessions[j].fd, Step(s, Request(i, p, hashOk));
    assert LiveAs(s, fd, p.payload.recipient);
    DmReachesRecipient(s, i, p, fd, 0);
    DmStateIs(s, i, p, hashOk);
    hide Good, Step, Online;
    var o := Sent(fd, Delivered(p, s.sessions[i]));
    NewsOf(s.sent, [o]);
    assert [o][..0] == [];
  }

  lemma DmStateIs(s: State, i: nat, p: Packet, hashOk: bool)
    requires i < |s.sessions| && IsMessagePacket(p)
    ensures var s' := Step(s, Request(i, p, hashOk)); s' == HandleDm(s, i, p) && s' == s.(dms := s'.dms, sent := s'.sent)
  {}

  /**
   A message that arrives while its recipient is logged in: if the recipient's client has a slot for its
   sender or for the recipient, exactly one line is added there, if there is room, and nothing else changes
   but what the user types in the login form.
   */
  lemma LiveMessageArrives(s: State, i: nat, p: Packet, hashOk: bool, j: nat, v: View, ys: seq<Input>, k: int)
    requires Good(s) && i < |s.sessions| && IsMessagePacket(p) && p.frame != LIST_FRAME_START && p.frame != LIST_FRAME_END
    requires j < |s.sessions| && s.sessions[j].authenticated && s.sessions[j].id == p.payload.recipient
    requires ViewOk(v) && Receives(ys, s.sent, Step(s, Request(i, p, hashOk)).sent, s.sessions[j].fd)
    requires IsFirstSlot(v, Delivered(p, s.sessions[i]), k)
    ensures var w, slot := AdvanceAll(v, ys), v.slots[k];
            if |slot.messages| < MAX_MESSAGES
            then OnlyMessages(v.(form := w.form), w, k, slot.messages + [LineFrom(v, slot, Delivered(p, s.sessions[i]))])
            else w == v.(form := w.form)
  {
    var q := Delivered(p, s.sessions[i]);
    MessageIsDelivered(s, i, p, hashOk, j);
    MessageIsShown(v, q, k);
    hide Good, Step, Apply, IsFirstSlot, PacketsFor, News, AdvanceAll, Arrivals, LineFrom;
    TypingKeepsAllButForm(v, ys);
    ApplyOne(v, q);
    assert v.slots[k] in v.slots;
    hide ApplyAll;
  }

  /** So a recipient that has a place for the sender shows the transcript plus that line, under the sender's name. */
  lemma SenderIsShown(s: State, i: nat, p: Packet, hashOk: bool, j: nat, v: View, ys: seq<Input>)
    requires Good(s) && i < |s.sessions| && IsMessagePacket(p) && p.frame != LIST_FRAME_START && p.frame != LIST_FRAME_END
    requires j < |s.sessions| && s.sessions[j].authenticated && s.sessions[j].id == p.payload.recipient
    requires ViewOk(v) && Receives(ys, s.sent, Step(s, Request(i, p, hashOk)).sent, s.sessions[j].fd)
    requires HasPlace(v, s.sessions[j].id, s.sessions[i].id) && |v.slots[SlotFor(v, s.sessions[i].id)].messages| < MAX_MESSAGES
    ensures var from, w := s.sessions[i].id, AdvanceAll(v, ys);
            var slot := v.slots[SlotFor(v, from)];
            TranscriptOf(w, from) == Some(slot.messages + [Message(Truncated(slot.name, NAME_LEN), Truncated(p.payload.text, BODY_LEN))])
  {
    var from, k := s.sessions[i].id, SlotFor(v, s.sessions[i].id);
    PlaceIsFirst(v, p, s.sessions[i], s.sessions[j].id);
    LiveMessageArrives(s, i, p, hashOk, j, v, ys, k);
    hide Good, Step, AdvanceAll, SlotFor, HasPlace, IsFirstSlot, Receives;
    var w, ms := AdvanceAll(v, ys), v.slots[k].messages + [LineFrom(v, v.slots[k], Delivered(p, s.sessions[i]))];
    SamePlace(v, k, ms, s.sessions[j].id, from);
    FormIsNoTranscript(WithMessages(v, k, ms), w.form, from);
  }

  lemma PlaceIsFirst(v: View, p: Packet, c: Session, me: int)
    requires ViewOk(v) && IsMessagePacket(p) && p.payload.recipient == me && HasPlace(v, me, c.id)
    ensures IsFirstSlot(v, Delivered(p, c), SlotFor(v, c.id)) && v.slots[SlotFor(v, c.id)].id == c.id
  {}

  /**
   The last messages of two users go to the connection that asks for them and nowhere else: one frame for each
   row between the two, in the order of the table, between a START and an END; nothing changes.
   */
  lemma TranscriptIsAnswered(s: State, i: nat, p: Packet, hashOk: bool)
    requires Good(s) && i < |s.sessions| && p.payload.Dm? && p.payload.action == DM_HISTORY_REQUEST
    ensures var s', c := Step(s, Request(i, p, hashOk)), s.sessions[i];
            && s' == s.(sent := s'.sent)
            && exists ps :: AnsweredBy(s, s', c.fd, ps) && CarriesDms(ps, s.dms, s.users, c, p.payload.recipient)
  {
    TranscriptIsSent(s, i, p, hashOk);
    hide Good, Step, DmStream, History, CarriesDms, AnsweredBy;
    DmsAreCarried(s, s.sessions[i], p.payload.recipient);
  }

  lemma TranscriptIsSent(s: State, i: nat, p: Packet, hashOk: bool)
    requires i < |s.sessions| && p.payload.Dm? && p.payload.action == DM_HISTORY_REQUEST
    ensures var s', c := Step(s, Request(i, p, hashOk)), s.sessions[i];
            s' == s.(sent := s'.sent) && AnsweredBy(s, s', c.fd, DmStream(s.users, c, p.payload.recipient, History(s.dms, c.id, p.payload.recipient)))
  {
    hide DmStream, History, Into;
  }

  /** No other packet about direct messages does anything. */
  lemma OtherDmActions(s: State, i: nat, p: Packet, hashOk: bool)
    requires i < |s.sessions| && p.payload.Dm? && !(p.payload.action in [DM_MESSAGE, DM_HISTORY_REQUEST])
    ensures Step(s, Request(i, p, hashOk)) == s
  {}

  // ------------------------------------------------------------ both ends of a conversation

  /** The packet of a message that a user typed. */
  function TypedTo(friend: int, text: string): Packet {
    Plain(Dm(DM_MESSAGE, 0, friend, 0, Truncated(text, MESSAGE_LEN)))
  }

  /**
   A message in a conversation that both show.  Its sender, logged in, sees it at once, its recipient, logged
   in, when it arrives, and the table has it: both transcripts are again the conversation, with its new row.
   */
  lemma ConversationGoesOn(s: State, i: nat, j: nat, text: string, hashOk: bool, v: View, w: View, ys: seq<Input>, rows: seq<DmRow>)
    requires Good(s) && i < |s.sessions| && j < |s.sessions| && text != ""
    requires Ready(s, i, s.sessions[j].id, v) && Ready(s, j, s.sessions[i].id, w)
    requires var a, b := s.sessions[i].id, s.sessions[j].id;
             && TranscriptOf(v, b) == TranscriptOf(w, a) == Some(Conversation(s.users, rows)) && |rows| < MAX_MESSAGES
             && Receives(ys, s.sent, Step(s, Request(i, TypedTo(b, text), hashOk)).sent, s.sessions[j].fd)
    ensures var a, b, s' := s.sessions[i].id, s.sessions[j].id, Step(s, Request(i, TypedTo(s.sessions[j].id, text), hashOk));
            && SlotFor(v, b) >= 0 && |s'.dms| == |s.dms| + 1 && s'.dms[..|s.dms|] == s.dms
            && var row := s'.dms[|s.dms|];
            && row.sender == a && row.receiver == b && row.text == Truncated(text, MESSAGE_LEN)
            && var talk := Some(Conversation(s'.users, rows + [row]));
            && TranscriptOf(Echo(v, SlotFor(v, b), text), b) == talk
            && TranscriptOf(AdvanceAll(w, ys), a) == talk
  {
    var a, b, p := s.sessions[i].id, s.sessions[j].id, TypedTo(s.sessions[j].id, text);
    var s' := Step(s, Request(i, p, hashOk));
    DmStateIs(s, i, p, hashOk);
    DmIsStored(s, i, p);
    ReadySlot(s, i, b, v);
    ReadySlot(s, j, a, w);
    SenderIsShown(s, i, p, hashOk, j, w, ys);
    EchoIsShown(v, SlotFor(v, b), b, text);
    hide Good, Step, AdvanceAll, SlotFor, HasPlace, Receives, NameOf, Echo, HandleDm, TranscriptOf, UserIds;
    var row := s'.dms[|s.dms|];
    NestedCuts(text);
    CutTwice(NameOf(s.users, a));
    ConversationAppend(s.users, rows, row);
  }

  lemma ConversationAppend(users: seq<UserRow>, rows: seq<DmRow>, row: DmRow)
    ensures Conversation(users, rows + [row])
            == Conversation(users, rows) + [Message(Truncated(NameOf(users, row.sender), NAME_LEN), Truncated(row.text, BODY_LEN))]
    ensures |Conversation(users, rows)| == |rows|
  {
    hide NameOf, Truncated;
  }

  lemma ReadySlot(s: State, i: nat, friend: int, v: View)
    requires i < |s.sessions| && Ready(s, i, friend, v)
    ensures 0 <= SlotFor(v, friend) < MAX_FRIENDS && v.slots[SlotFor(v, friend)].id == friend
    ensures TranscriptOf(v, friend) == Some(v.slots[SlotFor(v, friend)].messages)
    ensures v.slots[SlotFor(v, friend)].name == Truncated(NameOf(s.users, friend), NAME_LEN)
  {
    hide NameOf, SlotOf;
    SlotIsOf(v, friend);
  }

  lemma EchoIsShown(v: View, k: nat, friend: int, text: string)
    requires ViewOk(v) && k == SlotFor(v, friend) && k < MAX_FRIENDS && v.Me().Some? && text != "" && |v.slots[k].messages| < MAX_MESSAGES
    ensures TranscriptOf(Echo(v, k, text), friend)
            == Some(v.slots[k].messages + [Message(Truncated(v.Me().value, NAME_LEN), Truncated(text, BODY_LEN))])
  {
    var ms := v.slots[k].messages + [Message(Truncated(v.Me().value, NAME_LEN), Truncated(text, BODY_LEN))];
    SamePlace(v, k, ms, 0, friend);
    hide SlotOf;
  }
}
