/** The chat window (`ChatWindow` in src/components/ChatWindow.tsx): the
    message list of the selected room, the user's membership in it, the
    realtime subscription for new messages, the message draft and the join
    action. The backend (room-detail fetch, current-user lookup, inserts,
    realtime channels) is not part of this model: what it answers is a
    parameter of the handler that awaits it, and what the handler asks of it
    is that handler's result. */
module ChatWindow {
  import opened Wrappers
  import opened Text
  import opened RoomDirectory

  /** A user profile as the room-detail query returns it. */
  datatype Profile = Profile(id: string, username: string, email: string)

  /** One entry of the room's membership roster (`chat_room_members`). */
  datatype Member = Member(joinedAt: string, user: Profile)

  /** A message as it arrives from the room-detail fetch, the realtime feed or
      the optimistic send; fields a source does not supply are `None`. The
      temporary identifier of an optimistic message is an opaque string. */
  datatype Message = Message(id: Option<string>, roomId: Option<string>, senderId: Option<string>,
                             content: string, createdAt: string)

  /** The room-detail record: the room, its roster and its messages, the last
      two optional. */
  datatype RoomDetails = RoomDetails(room: Room, members: Option<seq<Member>>, messages: Option<seq<Message>>)

  /** The row `handleSend` asks the backend to insert. */
  datatype MessageInsert = MessageInsert(roomId: string, senderId: string, content: string)

  /** How the join call ends: the membership row was inserted; no current user
      was found (the call logs and returns normally); or the insert failed and
      the call threw. */
  datatype JoinOutcome = Joined | NoCurrentUser | Threw

  /** A realtime channel opened by the window: a handle telling channels apart
      and the room whose message inserts it listens to. */
  datatype Channel = Channel(handle: nat, roomId: string)

  /** The roster's user ids, in roster order (`members.map(m => m.user.id)`). */
  function MemberIds(members: seq<Member>): (ids: seq<string>)
    ensures |ids| == |members|
    ensures forall k :: 0 <= k < |members| ==> ids[k] == members[k].user.id
  {
    if members == [] then [] else [members[0].user.id] + MemberIds(members[1..])
  }

  /** The membership derivation `memberIds?.includes(currentUserId) || false`:
      true exactly when a roster is present and lists the user. */
  function IsMemberOf(roster: Option<seq<Member>>, userId: string): (r: bool)
    ensures r <==> roster.Some? && exists k :: 0 <= k < |roster.value| && roster.value[k].user.id == userId
  {
    roster.Some? && userId in MemberIds(roster.value)
  }

  /** The window's state: one field per `useState` hook, the two props, and
      the realtime channels the window holds open. */
  class Window {
    // props
    var selectedChat: Room
    var currentUserId: string
    // state hooks
    var messages: seq<Message>
    var roomDetails: Option<RoomDetails>
    var newMessage: string
    var isMember: bool
    var joining: bool
    // the subscription kept by the realtime effect
    var channel: Option<Channel>
    var openChannels: set<nat>
    var nextHandle: nat

    /** At most one channel is open, and it is the one the effect holds. */
    ghost predicate Valid()
      reads this
    {
      && (channel.None? ==> openChannels == {})
      && (channel.Some? ==> openChannels == {channel.value.handle} && channel.value.handle < nextHandle)
    }

    /** Mounting with the given props: every hook at its initial value. */
    constructor (chat: Room, userId: string)
      ensures Valid()
      ensures selectedChat == chat && currentUserId == userId
      ensures messages == [] && roomDetails.None? && newMessage == "" && !isMember && !joining
      ensures channel.None? && openChannels == {}
    {
      selectedChat, currentUserId := chat, userId;
      messages, roomDetails, newMessage, isMember, joining := [], None, "", false, false;
      channel, openChannels, nextHandle := None, {}, 0;
    }

    /** A re-render with new props; the effects that depend on them are the
        separate steps `FetchDetails` and `Resubscribe`. */
    method ReceiveProps(chat: Room, userId: string)
      modifies this`selectedChat, this`currentUserId
      ensures selectedChat == chat && currentUserId == userId
    {
      selectedChat, currentUserId := chat, userId;
    }

    /** The composer's `onChange`. */
    method SetNewMessage(text: string)
      modifies this`newMessage
      ensures newMessage == text
    {
      newMessage := text;
    }

    /** Taking a fetched room-detail record: it becomes `roomDetails`, its
        message list (or the empty list) replaces `messages` wholesale, and
        membership is re-derived from its roster. */
    method ApplyDetails(details: RoomDetails)
      modifies this`roomDetails, this`messages, this`isMember
      ensures roomDetails == Some(details)
      ensures messages == details.messages.GetOr([])
      ensures isMember <==> IsMemberOf(details.members, currentUserId)
    {
      roomDetails := Some(details);
      messages := details.messages.GetOr([]);
      isMember := IsMemberOf(details.members, currentUserId);
    }

    /** The `fetchDetails` effect. Nothing is asked when the selected room has
        no id; otherwise its details are requested (the result) and `reply`
        is the answer, `None` for null. A null answer changes nothing. */
    method FetchDetails(reply: Option<RoomDetails>) returns (requested: Option<string>)
      requires Valid()
      modifies this`roomDetails, this`messages, this`isMember
      ensures Valid()
      ensures requested == if selectedChat.id == "" then None else Some(selectedChat.id)
      ensures requested.Some? && reply.Some? ==>
                roomDetails == reply && messages == reply.value.messages.GetOr([])
                && (isMember <==> IsMemberOf(reply.value.members, currentUserId))
      ensures requested.None? || reply.None? ==>
                roomDetails == old(roomDetails) && messages == old(messages) && isMember == old(isMember)
    {
      if selectedChat.id == "" {
        return None;
      }
      requested := Some(selectedChat.id);
      if reply.Some? {
        ApplyDetails(reply.value);
      }
    }

    /** The realtime effect, re-run when the selected room or membership
        changes: the previous channel, if any, is removed first, and a new one
        is opened for the selected room only when it has an id and the user
        is a member. */
    method Resubscribe()
      requires Valid()
      modifies this`channel, this`openChannels, this`nextHandle
      ensures Valid()
      ensures old(channel).Some? ==> old(channel).value.handle !in openChannels
      ensures channel.Some? <==> selectedChat.id != "" && isMember
      ensures channel.Some? ==> channel.value == Channel(old(nextHandle), selectedChat.id)
                                && old(nextHandle) !in old(openChannels)
      ensures |openChannels| <= 1
    {
      if channel.Some? {
        openChannels := openChannels - {channel.value.handle};
        channel := None;
      }
      if selectedChat.id != "" && isMember {
        var handle := nextHandle;
        nextHandle := nextHandle + 1;
        openChannels := openChannels + {handle};
        channel := Some(Channel(handle, selectedChat.id));
      }
    }

    /** Unmounting: the effect's cleanup removes the channel it holds. */
    method Unmount()
      requires Valid()
      modifies this`channel, this`openChannels
      ensures Valid()
      ensures channel.None? && openChannels == {}
    {
      if channel.Some? {
        openChannels := openChannels - {channel.value.handle};
        channel := None;
      }
    }

    /** The realtime insert callback, run by the feed while the channel is
        open. The channel's filter delivers only rows of the room it was
        opened for; the payload is appended at the end, with no check against
        the identifiers already listed. */
    method OnRealtimeInsert(payload: Message)
      requires Valid() && channel.Some?
      requires payload.roomId == Some(channel.value.roomId)
      modifies this`messages
      ensures Valid()
      ensures messages == old(messages) + [payload]
    {
      messages := messages + [payload];
    }

    /** `handleSend`. `authUser` is the id the current-user lookup returns
        (`None` when it fails); `tempId` and `now` are the temporary id and
        the timestamp of the optimistic message. The result is the insert
        issued; the insert's outcome is only logged, so it is no parameter
        and undoes nothing. */
    method Send(authUser: Option<string>, tempId: string, now: string) returns (insert: Option<MessageInsert>)
      requires Valid()
      modifies this`messages, this`newMessage
      ensures Valid()
      ensures Trim(old(newMessage)) == [] || authUser.None? ==>
                insert.None? && messages == old(messages) && newMessage == old(newMessage)
      ensures Trim(old(newMessage)) != [] && authUser.Some? ==>
                && messages == old(messages)
                     + [Message(Some(tempId), Some(selectedChat.id), authUser, Trim(old(newMessage)), now)]
                && newMessage == ""
                && insert == Some(MessageInsert(selectedChat.id, currentUserId, Trim(old(newMessage))))
    {
      if Trim(newMessage) == [] {
        return None;
      }
      if authUser.None? {
        return None;
      }
      var draft := newMessage;
      messages := messages + [Message(Some(tempId), Some(selectedChat.id), authUser, Trim(draft), now)];
      newMessage := "";
      insert := Some(MessageInsert(selectedChat.id, currentUserId, Trim(draft)));
    }

    /** The first step of `handleJoin`: the button shows "Joining...". */
    method BeginJoin()
      modifies this`joining
      ensures joining
    {
      joining := true;
    }

    /** The rest of `handleJoin`, once the join call has ended with `outcome`.
        Unless it threw, the room's details are fetched again (the result) and
        `reply` is applied as by `FetchDetails`; a throw only ends joining. */
    method EndJoin(outcome: JoinOutcome, reply: Option<RoomDetails>) returns (requested: Option<string>)
      requires Valid()
      modifies this`joining, this`roomDetails, this`messages, this`isMember
      ensures Valid()
      ensures !joining
      ensures requested == if outcome == Threw then None else Some(selectedChat.id)
      ensures requested.Some? && reply.Some? ==>
                roomDetails == reply && messages == reply.value.messages.GetOr([])
                && (isMember <==> IsMemberOf(reply.value.members, currentUserId))
      ensures requested.None? || reply.None? ==>
                roomDetails == old(roomDetails) && messages == old(messages) && isMember == old(isMember)
    {
      requested := None;
      if outcome != Threw {
        requested := Some(selectedChat.id);
        if reply.Some? {
          ApplyDetails(reply.value);
        }
      }
      joining := false;
    }
  }

  /** A member sends a message and its realtime echo arrives: the list grows
      by two entries with the same content, the optimistic one with the
      temporary id and then the echo, since nothing de-duplicates them. */
  method SendThenEcho(w: Window, user: string, tempId: string, now: string, echoId: string, echoAt: string)
    requires w.Valid() && w.channel.Some? && Trim(w.newMessage) != []
    requires w.channel.value.roomId == w.selectedChat.id
    modifies w
    ensures w.Valid()
    ensures |w.messages| == |old(w.messages)| + 2
    ensures w.messages[..|old(w.messages)|] == old(w.messages)
    ensures w.messages[|w.messages| - 2].content == w.messages[|w.messages| - 1].content == Trim(old(w.newMessage))
    ensures w.messages[|w.messages| - 2].id == Some(tempId) && w.messages[|w.messages| - 1].id == Some(echoId)
  {
    var insert := w.Send(Some(user), tempId, now);
    var row := insert.value;
    w.OnRealtimeInsert(Message(Some(echoId), Some(row.roomId), Some(row.senderId), row.content, echoAt));
  }
}
