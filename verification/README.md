# Tizcord: a verified model of the server and of the views it keeps replicated

Tizcord is a chat program: one single-threaded server on a `select` loop, an SQLite database, and
terminal clients that show lists and transcripts rebuilt from packets. This project models the wire
layer, the server's event loop and handlers, the tables behind them, and the parts of the client that
fold packets into arrays, and proves what the pieces keep together.

## Layout

| file | what it holds |
|---|---|
| `Codec.dfy` | the 624-byte packet image, `swap_packet` in place, byte order |
| `Stream.dfy` | sockets as data plus a schedule of outcomes; `packet_send`, both readers |
| `Protocol.dfy`, `Marshal.dfy` | the fields that the programs read from an image; from packets to images and back across hosts |
| `Names.dfy` | C strings, `strcmp` order, tools for rows |
| `Friends.dfy` | the friends table and the machine of one pair of users |
| `Store.dfy` | servers, members, channels, messages, with constraints and cascades |
| `Rules.dfy`, `FriendRules.dfy` | which requests are allowed, why the others are refused, and what is left, over the rows of the tables |
| `Listing.dfy` | framed lists, the panel that the client rebuilds, and when its index leaves its array |
| `PanelView.dfy` | that panel against this server: no index leaves its array, and the answers leave what the tables hold |
| `ClientView.dfy` | the client's user list, friend slots, transcripts and own names as a fold over what happens to it |
| `Server.dfy` | every handler as a function on the state; one event at a time; runs |
| `Invariants.dfy` | what every event keeps |
| `Traffic.dfy` | the log of the sockets and what kinds of packets a request can send |
| `Wire.dfy` | the log on the wire: every packet fits the C structure, and a client reads what the log says |
| `Presence.dfy` | the replicated user list |
| `FriendView.dfy` | the replicated friend list |
| `Friendships.dfy`, `Lifecycle.dfy` | pairs, servers and administrators over whole runs |
| `Frames.dfy`, `Delivery.dfy` | what the streams of the server carry, row by row, and which connections a push reaches |
| `ServerAnswers.dfy`, `SocialAnswers.dfy`, `AccountAnswers.dfy` | every request: what it leaves in the tables and the sessions, how it is answered, and what every connection hears of it |
| `LiveMessages.dfy` | direct messages from the keyboard to both transcripts and the table |
| `Broadcasting.dfy` | channel messages as a broadcast, and their history |
| `LoginForm.dfy` | the login form of a client, edited and submitted while packets arrive, and the name that an answer takes from it |
| `OwnName.dfy`, `LoginRuns.dfy` | every login has its answer, and exactly when a logged-in client takes its user's name for its own; runs in which it does not |
| `Transcript.dfy` | mirrored direct-message transcripts, and when a friend list breaks them |
| `Accounts.dfy` | who is live where after logins, registrations, logouts; delivery of direct messages |
| `Database.dfy`, `Context.dfy` | the `DbContext` and the `ServerContext` as classes |
| `SocialHandlers.dfy`, `ServerHandlers.dfy`, `AuthHandlers.dfy`, `ChatHandlers.dfy` | the handlers as methods with the loops of the C code |
| `Sweep.dfy`, `Handover.dfy`, `EventLoop.dfy` | one pass of the loop: its reference, the requests it hands on, and the in-place sweep over a shrinking array |
| `ClientUi.dfy` | the client's arrays, updated in place |
| `Guarantees.dfy` | the program from its start, and a client on the other end |

The handlers appear twice: as methods that follow the C code on arrays and fields, and as functions
from state to state. Each method's contract equates the state it leaves with the function of the state
it found, and the replication and safety theorems are proved about the functions over all runs.
What the functions themselves must do is stated without them, over rows, sessions and packets, in
`Rules`, `FriendRules` and the three `Answers` modules: one theorem for each kind of request says when it is
done, why it is refused, exactly what it leaves, and what each connection hears.
`EventLoop.RunPass` shows that each pass of the loop is a run of events, and `Guarantees.PeerIsHandled`
that these events are the packets which the peers sent, so all of it holds of the program.

## Assumptions

- A prepared statement fails only when a constraint of the schema fails; a send succeeds, because a
  failed one is fatal for that connection; `accept` returns a positive descriptor that is not in use
  and fits a descriptor set.
- The data and the outcomes that a socket will deliver are fixed when it is accepted; nothing else about
  them is assumed, so every fragmentation, interruption and loss is covered.
- Whether a password can be hashed, or matches, is a verdict from outside.
- Where a client's own name is concerned the peer is the client program: the logins that the server takes in from it are the first of those it submitted, in order, and no answer precedes its submission (`OwnName.IsHistory`).
- Rows are kept in rowid order; a new row of a table without AUTOINCREMENT gets the largest id plus one.
- On the wire, names and texts of requests and tables are C strings, and ids and numbers of rows stay below 2^31 (`recipient_id` of a direct message is a C `int`); only `Wire.EveryPacketFits` and `Wire.ClientReadsLog` need it.

## Model

| member | source | states |
|---|---|---|
| Codec.FieldsWellPlaced | shared/protocol.h:97-162 | for every packet type the swapped fields are pairwise disjoint, inside the image, header and union arm apart |
| Codec.TextsApart | shared/protocol.h:97-162 | no swapped field touches a character array of its arm |
| Codec.HtonlReverses | shared/packet_helper.c:33-35 | on a little-endian host the 32-bit swap reverses the four bytes |
| Codec.Network64Reverses | shared/packet_helper.c:26-31 | `network64` is a true 8-byte reversal on a little-endian host |
| Codec.SwappedAt | shared/packet_helper.c:37-81 | the byte at every position after the swap is the byte at the mirrored position of its field, or the same byte outside all fields |
| Codec.OthersUntouched | shared/packet_helper.c:37-81 | padding, character arrays and everything outside the fields keep their bytes, on either host |
| Codec.SwappedTwice | shared/packet_helper.c:33-81 | swapping twice restores every byte |
| Codec.SwappedField | shared/packet_helper.c:34-80 | after the swap every field holds the network-order value of its host value |
| Codec.RoundTrip | shared/packet_helper.c:83-115 | a sent image is restored byte for byte by the receiver if and only if its type is one of the five of the protocol |
| Codec.EndiannessIndependence | shared/packet_helper.c:26-81 | a little- and a big-endian host emit identical bytes for the same packet |
| Codec.CrossEndianRoundTrip | shared/packet_helper.c:83-115 | what one host sends the other reads as the same packet |
| Codec.SwapPacket | shared/packet_helper.c:37-81 | the in-place swap of the array is `Swapped`, field by field |
| Stream.PartialReadAccounts | shared/packet_helper.c:117-141 | one call takes from the socket exactly what completes a packet, or what it buffers; nothing is lost |
| Stream.SessionDeliversPackets | shared/packet_helper.c:117-141 | under any schedule the packets delivered are those of the bytes taken, and bytes taken = 624 per packet plus the stored offset |
| Stream.PrefixOfWire | shared/packet_helper.c:83-115 | any prefix of what a peer puts on the wire decodes to a prefix of its packets, all whole ones included |
| Stream.EndToEnd | shared/packet_helper.c:83-141 | packets delivered are a prefix of the packets sent, and no good packet is refused |
| Stream.ReadersAgree | shared/packet_helper.c:97-141 | on every schedule the blocking and the resumable reader deliver the same packets and stop for the same reason, where the one waits inside `recv` and the other is told to come back |
| Stream.PacketReceivePartial | shared/packet_helper.c:117-141 | the loop over `recv` refines the reference reader |
| Stream.PacketReceive | shared/packet_helper.c:97-115 | the blocking loop refines its reference: interruptions retried, every other failure of `recv` ends it |
| Stream.Outbound.PacketSend | shared/packet_helper.c:83-95 | success means exactly the wire image went out, failure a strict prefix of it |
| Names.NextId | db/schema.sql:5 | the rowid of a new row is positive, unused and above all others |
| Names.SortBySorts | server/db.c:821 | ORDER BY leaves rows in `strcmp` order |
| Names.SortByPermutes | server/db.c:821 | ORDER BY neither loses nor repeats a row |
| Names.LessIs | server/db.c:821 | the order of texts: the first byte in which they differ decides, and a proper prefix comes first |
| Marshal.ImageReadsBack | shared/protocol.h:97-162 | the packet that a program assigns to a zeroed structure, field by field, is the packet it reads from it |
| Marshal.SameOnBothHosts | shared/packet_helper.c:26-81 | a little- and a big-endian program build images of the same packet |
| Marshal.SentIsReceived | shared/packet_helper.c:83-115 | any packet that fits the structure arrives as it was sent, from any host to any host |
| Marshal.PacketsArriveInOrder | shared/packet_helper.c:83-141 | under any fragmentation and for any two byte orders the packets read are those sent, in order, and less than one packet of the bytes taken is missing |
| Friends.PerformKeepsTable | server/db.c:503-667 | every request keeps the table free of self rows and of two rows for one pair in any direction |
| Friends.PerformRefines | server/db.c:503-667 | a request returns what the pair machine returns, moves its own pair as the machine does and no other, and changes nothing on an error |
| Friends.RunIsPairByPair | server/db.c:503-667 | after any requests each pair is what its own requests alone make of it |
| Friends.RequestsCommute | server/db.c:503-667 | requests about different pairs commute, in rows and in codes |
| Friends.ListingShowsPairs | server/db.c:669-707 | a user's list has an entry for exactly the users who are no strangers: 0 outgoing, 1 incoming, 2 friends |
| Friends.MutualRequestsBefriend | server/db.c:533-538 | mutual requests end in friends, seen as kind 2 by both |
| Friends.PerformKeepsReferences | db/schema.sql:19-20 | both ends of every row stay users |
| FriendRules.PerformIs | server/db.c:503-667 | for every request and every state of the two users' rows: the code, and the one row that is added, accepted or taken away |
| Friendships.PairsInEveryRun | server/tizcord_social.c:187-304 | in every run of the server the table is good and each pair lives the life of the pair machine on its own requests |
| Store.PerformKeepsTables | db/schema.sql:33-67 | every request keeps all UNIQUE and FOREIGN KEY constraints and at most one administrator per server |
| Store.DeleteServerExactly | server/db.c:326-348 | deleting a server removes it, its members, its channels and their messages, and nothing else |
| Store.NewServerHasItsCreatorOnly | server/db.c:260-281 | a new server, even on a reused id, has its creator as only member and no channel; it is made exactly when the name is free |
| Store.PerformKeepsOrphan | server/tizcord_server.c:182-343 | no request of anyone deletes a server without administrator, changes its channels or gives it an administrator |
| Store.PerformKeepsOnlyAdmin | server/db.c:283-303 | no request makes anyone but the sole administrator an administrator |
| Store.RefusedChangesNothing | server/tizcord_server.c:182-343 | a request that is not answered as done leaves all tables alone |
| Store.DoneHasItsEffect | server/tizcord_server.c:182-343 | a request answered as done has had its effect and was allowed |
| Rules.DoneExactlyWhenAllowed | server/tizcord_server.c:182-343 | a request is done if and only if it is well-formed, its object exists, the user may ask for it, and the rows have room for it; otherwise the code names the first of these that fails |
| Rules.TablesAfter | server/db.c:260-348 | a request that is done leaves exactly its rows: one more with the next id, one membership or one channel less with its messages, one server less with all that hangs on it; any other leaves all tables alone |
| Rules.RowsCountMembers | server/db.c:352-357 | the rows of a server that the query counts are as many as there are users who are members |
| Store.OutsidersChangeNothing | server/tizcord_server.c:301-325 | only an administrator can delete a server, change its channels or the membership of others |
| Store.PerformExtendsHistory | server/db.c:151-172 | while a channel lives its history only grows, by one row per message a known user posts in it |
| Store.PerformExtendsMessages | server/db.c:151-172 | while no channel goes, the whole table of messages only grows, by one row per message that can be stored |
| Store.ServerOfChannel | server/db.c:798-816 | the server of a channel, 0 if there is none |
| Lifecycle.OrphanStaysFrozen | server/tizcord_server.c:301-343 | in every run a server without administrator keeps its channels and is never deleted or taken over |
| Lifecycle.LosingTheAdminIsFinal | server/tizcord_server.c:218-256 | once the administrator has left or was kicked, that is the server's state for good |
| Lifecycle.CreatorIsTheOnlyAdmin | server/tizcord_server.c:258-293 | creation by a logged-in connection under a free name yields the administrator row, and nobody else administers the server while it lives |
| Lifecycle.ServerAnswersTellTheTruth | server/tizcord_server.c:182-343 | the answer to a request about a server says OK exactly when it was done; otherwise no table has changed |
| Lifecycle.ChannelAnswersTellTheTruth | server/tizcord_chat.c:136-163 | a channel creation is answered OK with the id of the new row exactly when the tables changed; the row is empty even on a reused id |
| Lifecycle.AllServersAreExact | server/db.c:350-376 | exactly the servers, each once, by name, each with the number of users who are members of it |
| Lifecycle.JoinedServersAreExact | server/db.c:442-475 | exactly the servers of the user, each once, by name, each with the number of users who are members of it |
| Lifecycle.MembersAreExact | server/db.c:409-440 | exactly the members, each once, by name, with administrator and online flags |
| Lifecycle.ChannelsAreExact | server/db.c:378-407 | exactly the channels of the server, each once, by name |
| Listing.Collect | server/tizcord_server.c:42-82 | the bounded accumulator holds the first rows with names cut to 31 bytes, and says whether it dropped any |
| Listing.ServerListRoundTrip | client/ui.c:1132-1149 | consuming one server list of any length leaves exactly the first rows that fit, in order, whatever was shown before |
| Listing.ChannelListRoundTrip | client/ui.c:1150-1173 | likewise for the channels of the active server, touching nothing else |
| Listing.MemberListRoundTrip | client/ui.c:1174-1193 | likewise for members, with administrator and online flags preserved |
| Listing.RefusalEmpties | client/ui.c:1132-1193 | a refused list request empties the list that the panel shows: the servers, or the channels or members of the active server |
| Listing.Update | client/ui.c:1132-1193 | an index leaves its array exactly on a member packet that continues a list while the active server has a negative count |
| Listing.NegativeCountOverruns | client/ui.c:1144-1185 | the input: a server list with count -1, then a continued member list |
| Listing.CountsKeepIndicesInside | client/ui.c:1132-1193 | without negative counts in the packets no index leaves its array, whatever the user chooses in between |
| Listing.UiPanel.UpdateServerState | client/ui.c:1132-1193 | the in-place update refines the fold and reports exactly the index that leaves its array |
| PanelView.CountsInEveryRun | server/client_helper.c:80-183 | in every run the server sends no negative count |
| PanelView.PanelStaysInside | client/ui.c:1174-1193 | so in every run no packet of this server, in any order and with any choices in between, makes an index leave its array |
| PanelView.ServersShownAreTrue | server/tizcord_server.c:344-374 | a list request leaves the panel with exactly servers that were asked for, each with its name and the number of users who are members of it; all of them, if there are at most 8 |
| PanelView.ChannelsShownAreTrue | server/tizcord_server.c:375-405 | a channel request leaves the active server with channels of exactly the server asked for, all of them if there are at most 5; without a login or a positive id it is one error and no list |
| PanelView.MembersShownAreTrue | server/tizcord_server.c:407-439 | a member request leaves the active server with the first 16 members of the server asked for, and every other server alone |
| PanelView.UiMembersAreTrue | client/ui.c:1182-1192 | these are members with their own flags; all of them, if at most 16 users are members |
| ClientView.ExchangeSorts | client/ui.c:1673-1689 | the nested exchange loops yield a permutation, online first, then by name without regard to case |
| ClientView.OrderIs | client/ui.c:1673-1689 | of two users the one that is online comes first, and otherwise the one whose name comes first without regard to case |
| ClientView.SlotOf | client/ui.c:1048-1054 | the first shown slot with one of two ids |
| ClientView.UserFrames | client/ui.c:1659-1690 | a START frame empties the user list, a MIDDLE frame adds its user while there is room, an END frame sorts, and no other frame does anything |
| ClientView.FarewellForgets | client/ui.c:982-1009 | after a logout the client shows no users and no friends, has no name of its own and an empty form; transcripts stay in their slots, and so do the stored names |
| ClientView.TypingKeepsLists | client/ui.c:1621-1717 | whatever the user types and submits and when, the lists a client shows, and how many messages it holds for whom, are those that the packets alone make |
| LoginForm.NamesCountWelcomes | client/ui.c:954-962 | the stored user names are as many as there were OK answers to logins and registrations; nothing takes one away |
| LoginForm.FormAtAnswer | client/ui.c:476-506 | when an answer arrives the form holds the submitted name if and only if nothing has emptied or edited it since the submission, or the last change was an edit back to that name |
| LoginForm.OwnNameIsSubmitted | client/ui.c:954-1009 | for every interleaving of edits, submissions and arrivals: a client with an OK answer in force takes the submitted name for its own if and only if between the submission and its answer no other OK answer and no AUTH_LOGOUT came and the form was not edited, or last edited back |
| ClientUi.Ui.SortUsers | client/ui.c:1673-1689 | the in-place sort is that permutation |
| ClientUi.Ui.ReceiveUser | client/ui.c:1659-1690 | the user-list arm, in place |
| ClientUi.Ui.UpdateStatus | client/ui.c:1695-1703 | the status arm changes the first entry of the user and no other |
| ClientUi.Ui.ReceiveFriend | client/ui.c:1636-1646 | the friend-list arm, in place |
| ClientUi.Ui.ReceiveDmMessage | client/ui.c:1045-1081 | a direct message goes to the slot the search finds, in place |
| ClientUi.Ui.HandleAuthResponse | client/ui.c:954-1009 | the account arm in place; `users[user_count]` leaves its array exactly when 16 names are stored |
| ClientUi.Ui.ProcessNetworkPacket | client/ui.c:1621-1717 | one packet changes the arrays as the fold says, and reports exactly the index that leaves its array |
| ClientUi.Ui.SubmitForm | client/ui.c:476-506 | Enter sends the name in the form, unless it is empty, and leaves it there |
| ClientUi.Ui.EnterMessage | client/ui.c:2110-2128 | a message that the user enters is appended under the own name to the open transcript, in place, if there is room |
| ClientUi.Ui.TakeInputs | client/ui.c:1621-1717 | everything that happens to a client leaves the arrays as the fold says and sends the submitted names, and an index leaves its array if and only if more than 16 OK answers come in all |
| Invariants.StepKeepsGood | server/server.c:186-214 | every event keeps all constraints of the database, distinct descriptors, and at most one live session per user |
| Invariants.RunKeepsGood | server/auth.c:15-58 | so does every run |
| Invariants.FirstMatchIsOnlyMatch | server/tizcord_chat.c:251-262 | searches that stop at the first record with a positive id find the user's one live session |
| Accounts.LoginTakesOver | server/auth.c:139-169 | after a login the user is live on that connection and on no other; a refused login changes nothing and is answered on its own connection only |
| Accounts.LoginSparesOthers | server/auth.c:28-58 | nobody else's connection changes |
| Accounts.RegistrationSignsIn | server/auth.c:94-119 | a registration makes a new user, live there only; a taken name changes nothing |
| Accounts.LogoutSignsOut | server/auth.c:178-221 | a logout ends what was live on its connection and nothing else, and its user is offline |
| Accounts.DmReachesRecipient | server/tizcord_chat.c:228-267 | a direct message goes to the recipient's one live connection under the sender's own id, or to nobody; one to id 0 goes to the first connection without a user; it is stored exactly when both ends are users |
| Accounts.AnswersTellTheTruth | server/auth.c:60-221 | the last packet of an account request is its answer: login OK exactly on a known name and a right password, registration OK exactly when it made a user, logout done exactly when there was someone to log out |
| Presence.StreamShowsTruth | server/tizcord_social.c:152-185 | a user-list stream replaces whatever a client showed by the sorted first 128 users |
| Presence.NotifyReaches | server/tizcord_social.c:152-185 | pushing the list to everybody leaves every authenticated client with the truth |
| Presence.RestatedIsCoherent | client/ui.c:1691-1703 | a status update of an online user keeps every shown list true and sorted |
| Presence.StepKeepsPresence | server/auth.c:101-173 | after every event every authenticated client shows the first 128 users by name, their texts and who is online |
| Presence.PresenceInEveryRun | server/server.c:104-134 | likewise in every run |
| Presence.PresenceFromTheStart | server/server.c:21-27 | likewise from a start with nobody connected |
| FriendView.StreamShowsFriends | client/ui.c:1636-1646 | a friend-list stream replaces whatever was shown by the first 64 entries |
| FriendView.ListingIgnoresOthers | server/db.c:669-707 | requests between others leave a user's list as it is, order included |
| FriendView.NotifyReachesUser | server/tizcord_social.c:122-150 | the push that stops at the first match reaches the user's live connection |
| FriendView.StepFollows | server/tizcord_social.c:187-304 | what any event does to the friends a client shows and to what it should show |
| FriendView.FriendsInEveryRun | server/tizcord_social.c:217-303 | in every run a connection that has its list and had each own deed answered by a push or a list shows its friends exactly; others never make it stale |
| FriendView.OwnDeedGoesStale | server/tizcord_social.c:224-246 | a fresh client is stale after an event exactly when it was its own successful request without a push about somebody who has one of the 64 places before or after; within 64 entries that is everybody |
| FriendView.DeedChangesTruth | server/db.c:503-707 | a successful request changes the first 64 entries of its user exactly if the other user is among them before or after |
| FriendView.AnswerTellsTruth | server/tizcord_social.c:196-304 | a friend request is answered first, and the answer is OK exactly when the table changed |
| Broadcasting.StampIsTrue | server/tizcord_chat.c:115-120 | a channel message carries the id and name of the user logged in on its connection, or neither |
| Broadcasting.EveryoneHearsTheSame | server/tizcord_chat.c:79-127 | a connection that stays hears exactly what is said, in order |
| Broadcasting.AnyTwoHearTheSame | server/tizcord_chat.c:79-89 | any two connections that stay hear the same |
| Broadcasting.HistoryIsWhatWasSaid | server/tizcord_chat.c:129-134 | while a channel lives its history grows by exactly what logged-in users said in it, in that order |
| Broadcasting.TableIsWhatWasSaid | server/tizcord_chat.c:111-134 | in a run that takes no channel away the whole table of messages grows by exactly the broadcasts that can be stored, in the order in which everybody heard them |
| OwnName.RunKeepsUsers | server/db.c:67-96 | users keep their ids and names in every run |
| OwnName.LoginsAreAnswered | server/auth.c:60-221 | in every run each login and registration taken in from a connection has had exactly one answer, and a connection that is logged in is so as the user named in the login whose answer is in force |
| OwnName.OwnNameInEveryRun | client/ui.c:954-1009 | in every run and for every interleaving of the client's edits and submissions with its arrivals: a client whose connection is logged in as a user, and that was answered OK at most 16 times, has the name of that very user for its own if and only if its form held the submitted name until the answer came |
| LoginRuns.CyclesAddNames | client/ui.c:959-980 | each login and logout on a connection stores one more name at its client, whatever its user does in between |
| LoginRuns.SeventeenLogins | client/ui.c:18-83 | on a new connection sixteen logins fill the array of names, and the seventeenth goes past it |
| LoginRuns.DoubleEnter | client/ui.c:476-506 | the first failing run: Enter twice before the first answer; both logins are accepted, and the logged-in client takes the empty name for its own |
| LoginRuns.CrossingLogout | client/ui.c:982-1009 | the second failing run: a logout crosses a takeover, its refusal arrives after the next login was submitted and empties the form, and the logged-in client takes the empty name for its own |
| Wire.EveryPacketFits | shared/protocol.h:97-162 | in every run in which ids and numbers of rows stay within 31 bits and strings are C strings, every packet that the server sends fits the C structure |
| Wire.ClientReadsLog | shared/packet_helper.c:83-115 | so between any two hosts and however the bytes are cut up, the blocking reader of a client hands on the packets of its socket's log in order, and all of them once it has taken all bytes |
| Frames.ChannelIsCarried | server/tizcord_chat.c:198-225 | a channel's history is one frame for each message of that channel and no other, in table order, with its id, its cut text and the cut name of its author |
| Frames.UsersAreCarried | server/tizcord_social.c:152-185 | the user list is one frame for each user, by name, each once, with text and whether some connection is logged in as it |
| Frames.FriendsAreCarried | server/db.c:669-707 | a friend list is one frame for each row to the user and then each row from the user, in table order, with the other user's name and how the two stand |
| Frames.DmsAreCarried | server/tizcord_chat.c:51-77 | a transcript is one frame for each of the last 50 rows between the two, in table order, under the asker's id exactly if the author's name is the one of the session |
| Frames.ItemsAreCarried | server/client_helper.c:80-183 | a list about servers is one frame for each of the first rows, numbered, with the first and the last marked, or one empty frame |
| Delivery.AnnouncementReaches | server/tizcord_server.c:441-466 | what follows a change of a user's sessions reaches each connection once: the member list of the server it looks at if the user is a member there, then the user list if it is logged in |
| ServerAnswers.ListsAreAnswered | server/tizcord_server.c:344-439 | a list request gets, on its own connection only, exactly the rows asked for, or one error whose code says why not; a member request makes the connection look at that server, and nothing else changes |
| ServerAnswers.RequestsAreHandled | server/tizcord_server.c:182-343 | join, leave, create, delete and kick are done exactly when the rules allow it, with exactly their effect; the answer comes first with the right status, and after a join or a leave exactly the logged-in connections that look at the server get its new member list |
| ServerAnswers.ChannelIsCreated | server/tizcord_chat.c:136-163 | a channel creation adds one row and is answered with its id and name, or changes nothing and is answered with the reason |
| ServerAnswers.ChannelIsDeleted | server/tizcord_chat.c:165-196 | a channel deletion is answered OK exactly when the channel was there and went, with its messages, and otherwise with the reason |
| ServerAnswers.HistoryIsAnswered | server/tizcord_chat.c:198-225 | a history request puts the messages of that channel on its own connection and on no other, and changes nothing |
| ServerAnswers.MessageIsSpread | server/tizcord_chat.c:111-134 | a channel message reaches every connection exactly once, under the id and name of its session, and is stored exactly when its sender is a user and the channel exists |
| SocialAnswers.FriendRequestsAreHandled | server/tizcord_social.c:196-304 | for every state of the two users' rows: which friend requests are refused and with which code, and of those that are done the row that changes, the answer, and exactly who is sent a new friend list |
| SocialAnswers.OthersAreRefused | server/tizcord_social.c:187-195 | without a login, or for an unknown action, there is one error on the own connection and nothing else |
| SocialAnswers.ListsAreSent | server/tizcord_social.c:248-328 | a request for friends or users is answered by them on its own connection alone |
| SocialAnswers.StatusIsTaken | server/tizcord_social.c:329-347 | a status text is taken if and only if it has 1 to 64 bytes: then exactly the row of its user has it and every logged-in connection is told once; otherwise nothing changes and there is one error on the own connection |
| SocialAnswers.StatusIsShown | client/ui.c:1691-1703 | after it every logged-in client that lists the user shows the text and the user online |
| AccountAnswers.RefusedAccounts | server/auth.c:60-221 | which account requests are refused and with which status, on the own connection and without any change |
| AccountAnswers.RegistrationIsHandled | server/auth.c:94-119 | a registration under a free name adds one user with a new id, logged in there; everybody logged in gets the new user list, and the new user the answer after it |
| AccountAnswers.LoginIsHandled | server/auth.c:122-176 | a right login signs its user in there and out everywhere else; each connection that loses the user gets one farewell, everybody logged in the news, and the new connection the answer after them, in this order |
| AccountAnswers.LogoutIsHandled | server/auth.c:178-221 | a logout clears the record of its connection; everybody still logged in gets the news, and the connection its answer with the name |
| AccountAnswers.HangupIsHandled | server/server.c:104-130 | a connection that goes takes its record with it; the others hear of it exactly if a user was logged in on it, and its own socket hears nothing |
| AccountAnswers.ConnectionIsTaken | server/server.c:164-183 | a new connection gets a blank record after the others, unless there are 64, and nobody hears of it |
| Transcript.HistoryOfPair | server/db.c:191-237 | the history is the last 50 messages of the two, or all, ascending by id, the same for both |
| Transcript.ReloadShowsLines | server/tizcord_chat.c:268-297 | a reload replaces the friend's transcript line for line, drops nothing, and touches nothing else |
| Transcript.AuthorIsTrue | server/tizcord_chat.c:62-68 | a history packet names the true author exactly when the two names cannot be confused by the comparison with a cut name |
| Transcript.LinesAreConversation | server/tizcord_chat.c:51-77 | the lines of a reload are the conversation if and only if the own name fits 31 bytes, reads like the friend's when cut, or the user wrote nothing |
| Transcript.FreshIsReady | client/ui.c:1636-1646 | a logged-in client that was sent its true friends is ready for every friend it has a place for if and only if its form held the submitted name until the answer came |
| Transcript.ReloadShowsConversation | client/ui.c:1045-1081 | a client that has a slot for the friend under the right name, and its own name, shows the conversation after a reload exactly when its user can tell who wrote what |
| Transcript.MirroredTranscripts | server/tizcord_chat.c:51-77 | after each of two friends reloads, each shows the same conversation exactly when its user can tell who wrote what; for the first this needs that the other is still, or again, in the slot it had |
| Transcript.MirroredAfterQuietRun | server/tizcord_chat.c:51-77 | so whatever happens between the two reloads except direct messages, if the friend ends at the place among the true entries where it was |
| Transcript.ListMovesTranscripts | client/ui.c:1636-1646 | after a friend list the transcript of a friend is what the slot at the place of its entry held before, whoever that was |
| Transcript.TranscriptSurvivesList | client/ui.c:1636-1646 | a friend list leaves a transcript as it is if and only if the friend keeps its place or moves to a slot with the same messages |
| Transcript.TranscriptSurvives | client/ui.c:1045-1081 | the same over any stretch of traffic that writes nothing to the slot |
| Transcript.SwappedPlacesSwapTranscripts | client/ui.c:1636-1646 | the input: two friends change places, and each transcript is shown under the other's name |
| Transcript.RequestMovesTranscript | server/db.c:669-707 | a stranger's request moves a friend one has asked to the next slot, and the client shows under the friend's name what that slot held |
| Transcript.RequestBreaksMirror | server/tizcord_social.c:196-246 | the failing run: reload, a stranger's request, and the conversation is no longer under the friend's name |
| LiveMessages.MessageIsShown | client/ui.c:1045-1081 | for every direct-message packet and every frame: the first shown slot of its sender or recipient is emptied by START, left alone by END, and otherwise grows by exactly the packet's line, cut and under the right author, while there is room; nothing else changes |
| LiveMessages.LiveMessageArrives | server/tizcord_chat.c:228-267 | a message to a logged-in user puts one packet on that user's connection alone, and the client there has exactly one more line in that slot |
| LiveMessages.SenderIsShown | client/ui.c:1045-1081 | so a recipient with a place for the sender shows the transcript plus the line, under the sender's name |
| LiveMessages.TranscriptIsAnswered | server/tizcord_chat.c:268-297 | a request for a transcript puts the last rows of the two on its own connection and on no other, and changes nothing |
| LiveMessages.ConversationGoesOn | client/ui.c:2110-2128 | a message typed in a conversation that both ends show: the sender's own line, the line that arrives and the new row agree, and both transcripts are again the stored conversation |
| Database.DbContext.SendFriendRequest | server/db.c:503-558 | the two-row query loop and the insert are the table operation |
| Database.DbContext.AcceptFriendRequest | server/db.c:560-601 | accept: check, update, delete of the reciprocal request |
| Database.DbContext.RemoveFriendship | server/db.c:603-638 | remove: only accepted rows, in either direction |
| Database.DbContext.RejectFriendRequest | server/db.c:640-667 | reject: only a pending request of the other user |
| Database.DbContext.CreateServer | server/db.c:260-281 | two inserts are the creation of a server |
| Database.DbContext.DeleteServer | server/db.c:326-348 | one delete with its cascades, refused to non-members |
| Context.ServerContext.ClientIsOnline | server/tizcord_social.c:73-85 | the scanning loop decides whether a live session has the id |
| Context.ServerContext.FindClient | server/tizcord_chat.c:103-109 | the search by descriptor finds the record |
| SocialHandlers.UserListItem | server/tizcord_social.c:42-71 | the row callback sends the entry of the row |
| SocialHandlers.SendUserList | server/tizcord_social.c:170-183 | start frame, one frame per row, end frame with the count |
| SocialHandlers.NotifyAllUserLists | server/tizcord_social.c:152-185 | the loop pushes the list to every authenticated record |
| SocialHandlers.SendFriendList | server/tizcord_social.c:24-40 | start frame, one frame per row, end frame |
| SocialHandlers.NotifyFriendListUpdate | server/tizcord_social.c:122-150 | the loop stops at the first record with the id |
| SocialHandlers.NotifyUserStatusUpdate | server/tizcord_social.c:109-119 | the status packet goes to every authenticated record |
| SocialHandlers.HandleSocialPacket | server/tizcord_social.c:187-352 | every arm leaves the state the model function says |
| ServerHandlers.SendListResponse | server/client_helper.c:80-183 | one frame per item or a single empty frame |
| ServerHandlers.CollectMembers | server/tizcord_server.c:84-114 | rows with online flags added one by one, at most 64 |
| ServerHandlers.ListMembers | server/tizcord_server.c:407-439 | the record remembers the server, and gets its member list |
| ServerHandlers.NotifyServerMemberList | server/tizcord_server.c:441-457 | member lists go to the authenticated records that show the server |
| ServerHandlers.NotifyServerMemberListsForUser | server/tizcord_server.c:459-466 | likewise for each server of a user |
| ServerHandlers.HandleServerPacket | server/tizcord_server.c:133-180 | every arm leaves the state the model function says |
| AuthHandlers.RevokeExistingLogin | server/auth.c:28-58 | the loop clears, while it walks, exactly the other sessions of the user, and tells each |
| AuthHandlers.RegisterAccount | server/auth.c:60-120 | registration: hash, insert, link, push, answer |
| AuthHandlers.LoginAccount | server/auth.c:122-176 | login: lookup, verdict, takeover, link, pushes, answer |
| AuthHandlers.LogoutAccount | server/auth.c:178-221 | logout: refuse or clear, pushes, answer |
| ChatHandlers.ChannelBroadcast | server/tizcord_chat.c:79-89 | the packet goes to every open record |
| ChatHandlers.HandleChannelMessage | server/tizcord_chat.c:101-226 | every arm leaves the state the model function says |
| ChatHandlers.HandlePrivateMessage | server/tizcord_chat.c:228-298 | save, forward to the first match, or stream the history |
| Sweep.PlanInOrder | server/server.c:97-136 | the jobs of a pass belong to connections readable at its start, in record order, at most one each |
| Sweep.PlanIsExact | server/server.c:97-136 | every readable connection is read by one call, whose outcome alone decides its job: the packet it completes is handed on, a bad packet or a lost peer ends it; there are no other jobs |
| Sweep.WiresAreExact | server/server.c:97-136 | after a pass exactly the connections remain that their read did not end, in their order, each with what it has buffered |
| Sweep.ServeAllIsRun | server/server.c:186-214 | a pass is a run of events |
| Sweep.FifoStep | shared/packet_helper.c:117-141 | one read keeps the account of bytes and packets of a connection, the read that ends it included |
| Sweep.FifoDelivers | shared/packet_helper.c:117-141 | the packets handed on are a prefix of those sent |
| Sweep.NeverRejected | shared/packet_helper.c:133-136 | a peer that sends only packets of the protocol is never dropped for a bad one |
| Handover.PlanIsHandled | server/server.c:186-214 | the requests of a pass are, for each connection, the packets read from it, whatever the requests before it did to the records |
| EventLoop.HandleNewConnection | server/server.c:164-183 | a connection is added below 64, refused at 64 |
| EventLoop.ShiftDown | server/server.c:120-124 | the later records move down in order |
| EventLoop.RemoveClient | server/server.c:104-130 | the record goes, its descriptor is closed and cleared, the absence is announced |
| EventLoop.ProcessClientPacket | server/server.c:186-214 | the dispatch leaves the state the model function says and the buffers alone |
| EventLoop.SweepClients | server/server.c:97-136 | the index that steps back on removal does what the jobs, each found by descriptor, do; survivors keep order and buffers |
| EventLoop.AcceptWaiting | server/server.c:85-96 | a connection that waits at the listener is accepted and watched before the sweep |
| EventLoop.RunPass | server/server.c:77-136 | a pass ends, takes in a waiting connection while there are fewer than 64, reads once from each connection readable at its start and from no other, not from the one it has just accepted, keeps the book-keeping, and is a run whose requests are the packets it read |
| EventLoop.RunServerLoop | server/server.c:71-138 | any number of passes is a run whose requests are, for each connection, the packets read from it, in order |
| EventLoop.HandedOnInOrder | server/server.c:99-133 | through any churn the packets handed on are a prefix of those the peer sent and less than one packet of what was read is missing, for connections that are gone as well |
| EventLoop.GoodPeerStays | server/server.c:99-133 | for a connection that is there, what is missing is what its record has buffered, and its next read rejects nothing if the peer sends only packets of the protocol |
| Guarantees.ServeClients | server/server.c:71-138 | from an empty context on a good database, after any passes: constraints, single sessions, accounts of bytes, every logged-in client is sent the truth about all users, every login has its answer and the one in force is that of the connection's user, and the requests handled for a connection are the packets taken from it |
| Guarantees.PeerIsHandled | server/server.c:97-136 | the requests handled for a connection are exactly the first packets that its peer sent, as many as were read whole, whatever the hosts, the cuts and the other connections |
| Guarantees.ClientShowsTruth | client/ui.c:1621-1717 | a logged-in client's arrays, updated in place by whatever its user did and whatever arrived, hold the true user list, and its own user's name if and only if the form held the submitted name until the answer came; an index leaves its array exactly if it was answered OK more than 16 times |

## Left out

- Drawing, keyboard handling, slash commands and the client's own requests: user-interface code. A client's requests are the events of the server.
- Socket setup, `select` itself, signals, logging, the clock and the timestamps of packets and rows.
- The list id of a packet and its counter: no receiver reads it.
- SQLite beyond the tables, constraints, cascades and the listed queries; the `sessions` table and the e-mail column, which nothing reads.
- Password hashing, TLS and end-to-end encryption.
- The membership, server and channel arrays of `ServerContext`, which are only zeroed.
- Routing by channel: the broadcast goes to everybody, and the client appends it to the channel it shows. Nothing is claimed about channel transcripts on the client.
- The member sidebar as a replicated view: a kick pushes no member list.
- Protocol.Text: a character array without a terminating NUL is read as if it ended with the array, where the C code would read on.
- Protocol.PacketOf: strings hold one byte per character.
- Server.Stamped: a sender name replaces the whole name field; a 32nd byte that a peer sets in it is not kept.
- Server.Send: a send always succeeds; what a handler does after a failed send is not modelled.
- Broadcasting.HistoryIsWhatWasSaid: rows with equal `created_at` are taken in row order, which the query leaves open.
- Friends.ListingShowsPairs: the list is a set of entries; the order within each arm of the UNION is taken as row order.
- FriendView.FriendsInEveryRun: the answer to a list request of a connection that is not logged in is a single frame, which a client takes for an entry; the statement is about connections that are logged in.
- Transcript.MirroredTranscripts: a message that reaches the friend's slot at the first client between the two reloads is excluded, as is one that changes the stored conversation; then there is a newer conversation to show.
- Listing.UiPanel.UpdateServerState: the packets of lists only; the arms for answers to create, leave, delete and kick are user-interface code.
- Context.ClientNode: the receive buffer is held by value in the record, because the sweep copies whole records.
- ClientView.Apply: once more than 16 logins were answered OK the C program has written past `users` and nothing is known of it; the fold goes on as if the array had no end, and the statements about the program itself (`ClientUi`, `Guarantees.ClientShowsTruth`, `OwnName.OwnNameInEveryRun`) stop there. The stored passwords and server ids, which nothing reads, are left out.
- ClientView.Echo: the line that a user's own message leaves is an operation of its own and no input of a client history.
- ClientView.Advance: the password in the form; Enter without one sends nothing and is not an input.
- ClientUi.Ui.HandleAuthResponse: stops at the index that leaves its array instead of writing there.
- Broadcasting.TableIsWhatWasSaid: runs that take no channel away; with deletions the table is followed channel by channel, by `Broadcasting.HistoryIsWhatWasSaid`.
- Listing.Item: the count of a row is not cut to 32 bits, which 2^31 members of one server would need.
