# Periskope chat client: room directory and chat window state

This project models the client-side state of a small group-chat web front-end
in Dafny. The front-end delegates authentication, storage and realtime delivery
to a hosted backend. Two components keep state of their own, and they are
what this model covers:

- **The room directory** (`ChatRoomList`, src/components/UserList.tsx) lists
  the chat rooms and filters them by a search term. The filter matches either
  the room name or any tag, ignores case, and keeps every room when the term
  is blank. The directory also holds a "create room" dialog: a room name and
  a draft list of tags. Tags are trimmed, must be non-empty, and are never
  added twice. Creating a room puts it at the front of the list and resets
  the dialog.
- **The chat window** (`ChatWindow`, src/components/ChatWindow.tsx) holds the
  message list of the selected room, whether the current user is a member,
  the message draft and a "joining" flag. A room-detail fetch replaces the
  messages wholesale and derives membership from the roster. While the user
  is a member, a realtime channel appends every inserted message. Sending
  appends an optimistic message and clears the draft. Joining inserts a
  membership and then fetches the room again.

Each backend call is an input to the handler that awaits it. For example, the
room returned by the create call is `Option<Room>`, a room-detail record or
null is `Option<RoomDetails>`, and the current-user lookup is
`Option<string>`. When a handler asks the backend for something, the request
is that handler's result: `CreateRequest`, `MessageInsert`, or the room id a
fetch asks for. Each handler is then a deterministic transition. Each one is
a method of a class (`RoomDirectory.Directory`, `ChatWindow.Window`) whose
fields are the component's `useState` hooks. Its postcondition gives the
whole new state, including which fields stay the same.

The string operations the components use are in module `Text`:
`String.prototype.trim` is `Trim`, `toLowerCase` is `ToLower`, and
`String.prototype.includes` is `Includes`. Each one is proved against a
declarative description. For example, `Includes(s, sub)` holds exactly when
`sub` occurs at some position of `s`.

Files: `wrappers.dfy` (Option), `text.dfy`, `room_directory.dfy`,
`chat_window.dfy`.

## What the code does not do

The code never removes a duplicate from the message list: a realtime insert
is not checked against the identifiers already listed, and a send does not
wait for its realtime echo. The model follows the code:

- The realtime callback appends every payload with no identifier check
  (src/components/ChatWindow.tsx:63-66).
- `handleSend` appends an optimistic message with a temporary id. It clears
  the draft before the insert, and does not restore the draft when the insert
  fails (src/components/ChatWindow.tsx:83-104).
- So a sent message and its realtime echo give two entries with the same
  content. `ChatWindow.SendThenEcho` proves this.
- The optimistic message's sender is the id from the current-user lookup.
  The inserted row's sender is the `currentUserId` prop. The model keeps both.
- The code never discards a late fetch reply that belongs to an earlier room
  selection (see "Left out").

## Model

| member | source | states |
|---|---|---|
| Text.TrimStart | src/components/UserList.tsx:63 | the leading-whitespace cut of `trim()`: the result is a suffix of the input, does not start with whitespace, and everything cut off before it is whitespace |
| Text.TrimEnd | src/components/UserList.tsx:63 | the trailing-whitespace cut of `trim()`: the result is a prefix of the input, does not end with whitespace, and everything cut off after it is whitespace |
| Text.Trim | src/components/UserList.tsx:63 | `trim()` gives an empty result exactly when the input is all whitespace; otherwise the result starts and ends with a non-whitespace character |
| Text.TrimIsSlice | src/components/UserList.tsx:63 | the result of `trim()` is a contiguous piece `s[i..j]` of the input, with only whitespace before `i` and after `j`, so `trim()` removes whitespace and nothing else |
| Text.TrimOfTrimmed | src/components/UserList.tsx:63-64 | a string that is empty or starts and ends with non-whitespace is its own trim |
| Text.TrimIdempotent | src/components/UserList.tsx:63-64 | trimming an already trimmed string changes nothing, so a stored tag stays trimmed |
| Text.ToLower | src/components/UserList.tsx:71 | lower-casing keeps the length and lowers each character on its own |
| Text.ToLowerKeepsBlank | src/components/UserList.tsx:70-71 | a term is blank exactly when its lower-cased form is blank |
| Text.Includes | src/components/UserList.tsx:74 | `s.includes(sub)` is true only when `sub` fits in `s`; the empty string is included in every string, and so is every suffix of `s` |
| Text.IncludesIff | src/components/UserList.tsx:74 | `s.includes(sub)` holds exactly when `sub` occurs at some position of `s` |
| RoomDirectory.Matches | src/components/UserList.tsx:69-82 | the filter callback keeps every room when the term is all whitespace; otherwise, in name mode a room passes exactly when its lower-cased name includes the lower-cased term, and in tag mode exactly when it has tags and some lower-cased tag includes the lower-cased term |
| RoomDirectory.NameSearch | src/components/UserList.tsx:71-75 | name mode with a non-blank term: a room passes exactly when the lower-cased term, untrimmed, occurs in the lower-cased name |
| RoomDirectory.AnyTagIncludes | src/components/UserList.tsx:78 | `tags.some(tag => tag.toLowerCase().includes(term))` holds exactly when some tag, lower-cased, includes the term |
| RoomDirectory.AnyTagIncludesIff | src/components/UserList.tsx:78 | the tag test holds exactly when the term occurs at some position of some lower-cased tag |
| RoomDirectory.TagSearch | src/components/UserList.tsx:77-79 | tag mode with a non-blank term: a room passes exactly when it has tags and the lower-cased term occurs at some position of one of them, lower-cased; a room without tags is excluded |
| RoomDirectory.MatchesIgnoresCase | src/components/UserList.tsx:71-79 | two terms that agree once lower-cased select the same rooms |
| RoomDirectory.UntrimmedTermExample | src/components/UserList.tsx:70-74 | the term is not trimmed for matching: "general " does not find a room named "general" |
| RoomDirectory.TagSearchFindsPrefix | src/components/UserList.tsx:77-79 | tag mode: "urg" finds a room tagged "urgent" |
| RoomDirectory.TagSearchSkipsOther | src/components/UserList.tsx:77-79 | tag mode: "urg" does not find a room tagged only "general" |
| RoomDirectory.Filter | src/components/UserList.tsx:69-82 | the filtered list is no longer than `rooms`, every room in it matches the search, and a blank term returns `rooms` unchanged |
| RoomDirectory.FilterBy | src/components/UserList.tsx:69 | `filter` returns no more rooms than it is given; each returned room passes the callback and comes from the input |
| RoomDirectory.FilterByMembers | src/components/UserList.tsx:69 | a room is in the filtered list exactly when it is in the input and passes |
| RoomDirectory.FilterByCounts | src/components/UserList.tsx:69 | a passing room keeps its number of occurrences; a failing one has none |
| RoomDirectory.FilterByIsSubsequence | src/components/UserList.tsx:69 | the filtered list is an order-preserving subsequence of the input |
| RoomDirectory.FilterByKeepsAll | src/components/UserList.tsx:69 | when every room passes, the filter returns the input unchanged |
| RoomDirectory.FilterSpec | src/components/UserList.tsx:69-82 | `filteredRooms` is an order-preserving subsequence of `rooms` holding exactly the matching rooms, each as often as in `rooms` |
| RoomDirectory.CanAddTag | src/components/UserList.tsx:63 | the guard of `handleAddTag` holds exactly when the input is not all whitespace and its trimmed form differs from every tag collected so far |
| RoomDirectory.AddTagKeepsTagsValid | src/components/UserList.tsx:62-67 | appending a trimmed input that is non-empty and new keeps the tags distinct, non-empty and trimmed |
| RoomDirectory.Directory.constructor | src/components/UserList.tsx:31-38 | every state hook starts at its initial value; the tag list is valid |
| RoomDirectory.Directory.LoadRooms | src/components/UserList.tsx:40-48 | a returned list, even an empty one, replaces `rooms`; a null answer keeps them; loading ends |
| RoomDirectory.Directory.CreateRoom | src/components/UserList.tsx:50-60 | a name that trims to empty issues no request and changes nothing; otherwise the trimmed name and the tags are sent; if no room comes back, nothing changes; if one does, it is put first, the old rooms follow in order, the name, tags and tag input are cleared and the dialog closes |
| RoomDirectory.Directory.AddTag | src/components/UserList.tsx:62-67 | the trimmed input is appended and the input cleared exactly when it is non-empty and not yet a tag; otherwise nothing changes; the tags stay valid |
| RoomDirectory.Directory.SetRoomName | src/components/UserList.tsx:107 | the room-name input sets `roomName` and nothing else |
| RoomDirectory.Directory.SetTagInput | src/components/UserList.tsx:115 | the tag input sets `tagInput` and nothing else |
| RoomDirectory.Directory.SetSearchTerm | src/components/UserList.tsx:151 | the search input sets `searchTerm` and nothing else |
| RoomDirectory.Directory.SelectFilter | src/components/UserList.tsx:158-160 | "name" and "tag" select the mode; any other toggle value keeps the current mode |
| RoomDirectory.Directory.FilteredRooms | src/components/UserList.tsx:69-82 | the rooms the list shows are the matching rooms, each as often as in `rooms` and in their order there, and all of `rooms` while the search term is blank |
| RoomDirectory.Directory.SetDialogOpen | src/components/UserList.tsx:92 | opening or closing the dialog sets `isDialogOpen` and nothing else |
| ChatWindow.MemberIds | src/components/ChatWindow.tsx:40 | the roster's ids, one per member, in roster order |
| ChatWindow.IsMemberOf | src/components/ChatWindow.tsx:40-41 | membership holds exactly when a roster is present and some member's user id is the current user's; a missing roster gives false |
| ChatWindow.Window.constructor | src/components/ChatWindow.tsx:15-23 | mounting sets the props, every hook starts at its initial value, and no channel is open |
| ChatWindow.Window.ReceiveProps | src/components/ChatWindow.tsx:15-18 | a re-render sets the selected room and user id and nothing else |
| ChatWindow.Window.SetNewMessage | src/components/ChatWindow.tsx:176 | the composer sets the draft and nothing else |
| ChatWindow.Window.ApplyDetails | src/components/ChatWindow.tsx:37-41 | a fetched record becomes `roomDetails`; its messages, or the empty list, replace `messages`; membership is re-derived from its roster |
| ChatWindow.Window.FetchDetails | src/components/ChatWindow.tsx:33-44 | a room without an id asks for nothing; otherwise its details are requested; a non-null reply replaces details, messages and membership; a null reply changes none of them |
| ChatWindow.Window.Resubscribe | src/components/ChatWindow.tsx:50-73 | the previous channel is removed; a new channel for the selected room is opened exactly when the room has an id and the user is a member; at most one channel is open |
| ChatWindow.Window.Unmount | src/components/ChatWindow.tsx:70-72 | teardown removes the open channel, leaving none |
| ChatWindow.Window.OnRealtimeInsert | src/components/ChatWindow.tsx:57-66 | the channel delivers only rows of the room it was opened for; the payload is appended at the end, earlier messages are unchanged, and no identifier is checked |
| ChatWindow.Window.Send | src/components/ChatWindow.tsx:75-105 | a draft that trims to empty, or a failed user lookup, changes nothing and issues no insert; otherwise exactly one message is appended, with the trimmed draft as content, the looked-up user as sender and the selected room as room; the draft is cleared; the insert carries the room, `currentUserId` and the trimmed draft; an insert failure undoes nothing |
| ChatWindow.Window.BeginJoin | src/components/ChatWindow.tsx:109 | joining starts: `joining` is set |
| ChatWindow.Window.EndJoin | src/components/ChatWindow.tsx:110-123 | `joining` is false on exit; unless the join threw, the room is fetched again and a non-null reply is applied as by a fetch; after a throw only `joining` changes |
| ChatWindow.SendThenEcho | src/components/ChatWindow.tsx:63-92 | a send followed by its realtime echo leaves two new entries with the same content, one with the temporary id and one with the echo's id |

## Left out

- src/lib/supabaseUtils.ts is not part of this model. Its functions are thin wrappers over the backend client, whose code is not available. Their outcomes are parameters of the handlers: `Option<Room>` for room creation, `Option<seq<Room>>` for the room listing, `Option<RoomDetails>` for the room-detail fetch, and `JoinOutcome` for the join.
- The authentication form, the navigation bar, the side bar, the chats layout and page, the Next.js configuration and the `User` type are not modelled. They are presentation, network authentication or configuration.
- Rendering (JSX), `scrollIntoView` and locale date formatting are not modelled.
- `Date.now()` and `new Date().toISOString()` in `handleSend` are opaque values supplied by the caller (`tempId`, `now`).
- Async interleaving is not modelled. React decides when effects run; the model exposes each effect as its own step (`FetchDetails`, `Resubscribe`), and the caller chooses when to run it. A stale fetch reply is applied to whichever room is selected, because the code has no guard against it. Realtime delivery timing is not modelled either.
- `ToLower` lowers ASCII letters only. The Unicode case mapping of `toLowerCase` is not modelled.
- Room ids are strings, and an empty id plays the part of a falsy `selectedChat?.id`. A null `selectedChat` is not modelled, because the prop's type does not allow it.
- A roster entry whose `user` is null, which would make `m.user.id` throw, is not modelled.
- The final `return true` of the filter callback (src/components/UserList.tsx:81) cannot be reached: the mode has only the two values "name" and "tag".
- RoomDirectory.Directory.LoadRooms: the `loading` flag is true while the listing is awaited. That interval is not a separate step of the model, so only its final value is stated.
- Messages are one record type, `Message`. Fetched messages carry `sender.id` and realtime or optimistic ones carry `sender_id`; both fill the `senderId` field.
