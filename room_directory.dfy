/** The room directory (`ChatRoomList` in src/components/UserList.tsx): the
    list of chat rooms, its search filter, and the room-creation dialog with
    its tag draft. The backend (room listing and room creation) is not part of
    this model: its answers are parameters of the methods that await them. */
module RoomDirectory {
  import opened Wrappers
  import opened Text

  /** A chat room as the backend returns it (`ChatRoom`); `tags` is optional. */
  datatype Room = Room(id: string, name: string, createdAt: Option<string>, tags: Option<seq<string>>)

  /** The search toggle: match on the room name or on its tags. */
  datatype FilterMode = ByName | ByTag

  /** What `handleCreateRoom` asks the backend to create. */
  datatype CreateRequest = CreateRequest(name: string, tags: seq<string>)

  // ----------------------------------------------------------------------
  // The search filter
  // ----------------------------------------------------------------------

  /** `room.tags.some(tag => tag.toLowerCase().includes(term))`, tried tag by
      tag: it holds exactly when some tag, lower-cased, includes the term. */
  function AnyTagIncludes(tags: seq<string>, term: string): (r: bool)
    ensures r <==> exists k :: 0 <= k < |tags| && Includes(ToLower(tags[k]), term)
  {
    if tags == [] then false
    else
      assert forall k :: 1 <= k < |tags| ==> tags[k] == tags[1..][k - 1];
      Includes(ToLower(tags[0]), term) || AnyTagIncludes(tags[1..], term)
  }

  /** The callback given to `rooms.filter`. A blank search term keeps every
      room; otherwise the lower-cased, untrimmed term is looked up in the
      lower-cased name or in some lower-cased tag, and a room without tags
      fails the tag search. */
  function Matches(room: Room, searchTerm: string, mode: FilterMode): (r: bool)
    ensures Blank(searchTerm) ==> r
    ensures mode == ByName ==> (r <==> Blank(searchTerm) || Includes(ToLower(room.name), ToLower(searchTerm)))
    ensures mode == ByTag ==>
              (r <==> Blank(searchTerm)
                      || (room.tags.Some?
                          && exists k :: 0 <= k < |room.tags.value|
                                && Includes(ToLower(room.tags.value[k]), ToLower(searchTerm))))
  {
    if Trim(searchTerm) == [] then true
    else
      var term := ToLower(searchTerm);
      match mode
      case ByName => Includes(ToLower(room.name), term)
      case ByTag => room.tags.Some? && AnyTagIncludes(room.tags.value, term)
  }

  /** `rooms.filter(keep)`: the rooms for which `keep` holds, in order. */
  function FilterBy(rooms: seq<Room>, keep: Room -> bool): (r: seq<Room>)
    ensures |r| <= |rooms|
    ensures forall k :: 0 <= k < |r| ==> keep(r[k])
    ensures multiset(r) <= multiset(rooms)
  {
    if rooms == [] then []
    else
      var rest := FilterBy(rooms[1..], keep);
      assert rooms == [rooms[0]] + rooms[1..];
      if keep(rooms[0]) then [rooms[0]] + rest else rest
  }

  /** `filteredRooms`: the rooms that pass `Matches`, at most all of them;
      a blank term keeps the list as it is. */
  function Filter(rooms: seq<Room>, searchTerm: string, mode: FilterMode): (r: seq<Room>)
    ensures |r| <= |rooms|
    ensures forall k :: 0 <= k < |r| ==> Matches(r[k], searchTerm, mode)
    ensures Blank(searchTerm) ==> r == rooms
  {
    var keep := room => Matches(room, searchTerm, mode);
    if Blank(searchTerm) then
      FilterByKeepsAll(rooms, keep);
      FilterBy(rooms, keep)
    else FilterBy(rooms, keep)
  }

  /** `a` is obtained from `b` by deleting elements, keeping the order. */
  predicate IsSubsequence(a: seq<Room>, b: seq<Room>)
    decreases |b|
  {
    if a == [] then true
    else if b == [] then false
    else if a[0] == b[0] then IsSubsequence(a[1..], b[1..])
    else IsSubsequence(a, b[1..])
  }

  /** In name mode with a non-blank term, a room passes exactly when the
      lower-cased term occurs somewhere in the lower-cased name. */
  lemma NameSearch(room: Room, searchTerm: string)
    requires !Blank(searchTerm)
    ensures Matches(room, searchTerm, ByName)
        <==> exists i :: OccursAt(ToLower(room.name), ToLower(searchTerm), i)
  {
    assert Matches(room, searchTerm, ByName) == Includes(ToLower(room.name), ToLower(searchTerm));
    IncludesIff(ToLower(room.name), ToLower(searchTerm));
  }

  /** The declarative meaning of the tag search: `term` occurs at some
      position of some lower-cased tag. */
  ghost predicate TagOccurs(tags: seq<string>, term: string) {
    exists k :: 0 <= k < |tags| && exists i :: OccursAt(ToLower(tags[k]), term, i)
  }

  /** `AnyTagIncludes` meets its declarative meaning. */
  lemma AnyTagIncludesIff(tags: seq<string>, term: string)
    ensures AnyTagIncludes(tags, term) <==> TagOccurs(tags, term)
  {
    forall k | 0 <= k < |tags|
      ensures Includes(ToLower(tags[k]), term) <==> exists i :: OccursAt(ToLower(tags[k]), term, i)
    {
      IncludesIff(ToLower(tags[k]), term);
    }
  }

  /** In tag mode with a non-blank term, a room passes exactly when it has
      tags and the lower-cased term occurs in one of them, lower-cased. */
  lemma TagSearch(room: Room, searchTerm: string)
    requires !Blank(searchTerm)
    ensures Matches(room, searchTerm, ByTag)
        <==> room.tags.Some? && TagOccurs(room.tags.value, ToLower(searchTerm))
  {
    if room.tags.Some? {
      assert Matches(room, searchTerm, ByTag) == AnyTagIncludes(room.tags.value, ToLower(searchTerm));
      AnyTagIncludesIff(room.tags.value, ToLower(searchTerm));
    }
  }

  /** The search is case-insensitive: two terms that agree once lower-cased
      select the same rooms. */
  lemma MatchesIgnoresCase(room: Room, t1: string, t2: string, mode: FilterMode)
    requires ToLower(t1) == ToLower(t2)
    ensures Matches(room, t1, mode) == Matches(room, t2, mode)
  {
    ToLowerKeepsBlank(t1);
    ToLowerKeepsBlank(t2);
  }

  /** The term itself is not trimmed: "general " does not find "general". */
  lemma UntrimmedTermExample()
    ensures !Matches(Room("r1", "general", None, None), "general ", ByName)
  {
    var term := "general ";
    assert !IsWhitespace(term[0]);
    NameSearch(Room("r1", "general", None, None), term);
    assert |ToLower(term)| == 8 && |ToLower("general")| == 7;
  }

  /** Tag mode: "urg" finds a room tagged "urgent". */
  lemma TagSearchFindsPrefix()
    ensures Matches(Room("a", "Team X", None, Some(["urgent"])), "urg", ByTag)
  {
    var term := "urg";
    assert !IsWhitespace(term[0]);
    TagSearch(Room("a", "Team X", None, Some(["urgent"])), term);
    var tag := ["urgent"][0];
    assert ToLower(tag)[0..3] == ToLower(term);
    assert OccursAt(ToLower(tag), ToLower(term), 0);
  }

  /** Tag mode: "urg" does not find a room tagged "general". */
  lemma TagSearchSkipsOther()
    ensures !Matches(Room("b", "Lobby", None, Some(["general"])), "urg", ByTag)
  {
    var term := "urg";
    assert !IsWhitespace(term[0]);
    TagSearch(Room("b", "Lobby", None, Some(["general"])), term);
  }

  /** A room is kept exactly when it is in the list and `keep` holds of it. */
  lemma {:induction false} FilterByMembers(rooms: seq<Room>, keep: Room -> bool, x: Room)
    ensures x in FilterBy(rooms, keep) <==> x in rooms && keep(x)
  {
    if rooms != [] {
      FilterByMembers(rooms[1..], keep, x);
      assert rooms == [rooms[0]] + rooms[1..];
    }
  }

  /** Each kept room is kept as many times as it occurs; the others vanish. */
  lemma {:induction false} FilterByCounts(rooms: seq<Room>, keep: Room -> bool, x: Room)
    ensures multiset(FilterBy(rooms, keep))[x] == if keep(x) then multiset(rooms)[x] else 0
  {
    if rooms != [] {
      FilterByCounts(rooms[1..], keep, x);
      var rest := FilterBy(rooms[1..], keep);
      assert rooms == [rooms[0]] + rooms[1..];
      assert multiset(rooms) == multiset([rooms[0]]) + multiset(rooms[1..]);
      if keep(rooms[0]) {
        assert FilterBy(rooms, keep) == [rooms[0]] + rest;
        assert multiset(FilterBy(rooms, keep)) == multiset([rooms[0]]) + multiset(rest);
      } else {
        assert FilterBy(rooms, keep) == rest;
      }
    }
  }

  lemma {:induction false} SubsequenceOfTail(a: seq<Room>, b: seq<Room>, y: Room)
    requires IsSubsequence(a, b)
    ensures IsSubsequence(a, [y] + b)
    decreases |b|, 1
  {
    assert ([y] + b)[1..] == b;
    if a != [] && a[0] == y {
      // match a[0] against y, then the rest of a against b
      SubsequenceDropHead(a, b);
    }
  }

  lemma {:induction false} SubsequenceDropHead(a: seq<Room>, b: seq<Room>)
    requires a != [] && IsSubsequence(a, b)
    ensures IsSubsequence(a[1..], b)
    decreases |b|, 0
  {
    if a[1..] != [] {
      assert [b[0]] + b[1..] == b;
      if a[0] != b[0] {
        SubsequenceDropHead(a, b[1..]);
      }
      SubsequenceOfTail(a[1..], b[1..], b[0]);
    }
  }

  /** The kept rooms form an order-preserving subsequence of the list. */
  lemma {:induction false} FilterByIsSubsequence(rooms: seq<Room>, keep: Room -> bool)
    ensures IsSubsequence(FilterBy(rooms, keep), rooms)
  {
    if rooms != [] {
      FilterByIsSubsequence(rooms[1..], keep);
      var rest := FilterBy(rooms[1..], keep);
      if keep(rooms[0]) {
        assert ([rooms[0]] + rest)[1..] == rest;
      } else {
        SubsequenceOfTail(rest, rooms[1..], rooms[0]);
        assert [rooms[0]] + rooms[1..] == rooms;
      }
    }
  }

  /** When `keep` holds of every room, nothing is dropped. */
  lemma {:induction false} FilterByKeepsAll(rooms: seq<Room>, keep: Room -> bool)
    requires forall k :: 0 <= k < |rooms| ==> keep(rooms[k])
    ensures FilterBy(rooms, keep) == rooms
  {
    if rooms != [] {
      FilterByKeepsAll(rooms[1..], keep);
      assert [rooms[0]] + rooms[1..] == rooms;
    }
  }

  /** The search result, stated on its own: it is an order-preserving
      subsequence of `rooms`, a room is in it exactly when it is in `rooms`
      and matches, and every matching room keeps its multiplicity. */
  lemma FilterSpec(rooms: seq<Room>, searchTerm: string, mode: FilterMode)
    ensures IsSubsequence(Filter(rooms, searchTerm, mode), rooms)
    ensures forall x :: x in Filter(rooms, searchTerm, mode) <==> x in rooms && Matches(x, searchTerm, mode)
    ensures forall x :: multiset(Filter(rooms, searchTerm, mode))[x]
                        == if Matches(x, searchTerm, mode) then multiset(rooms)[x] else 0
  {
    var keep := room => Matches(room, searchTerm, mode);
    FilterByIsSubsequence(rooms, keep);
    forall x ensures x in FilterBy(rooms, keep) <==> x in rooms && keep(x) {
      FilterByMembers(rooms, keep, x);
    }
    forall x ensures multiset(FilterBy(rooms, keep))[x] == if keep(x) then multiset(rooms)[x] else 0 {
      FilterByCounts(rooms, keep, x);
    }
  }

  // ----------------------------------------------------------------------
  // The tag draft
  // ----------------------------------------------------------------------

  /** Every tag is non-empty and already trimmed. */
  predicate TagsTrimmed(tags: seq<string>) {
    forall k :: 0 <= k < |tags| ==> tags[k] != [] && Trim(tags[k]) == tags[k]
  }

  /** No tag occurs twice. */
  predicate TagsDistinct(tags: seq<string>) {
    forall j, k :: 0 <= j < k < |tags| ==> tags[j] != tags[k]
  }

  /** The tags collected so far: non-empty, already trimmed, pairwise distinct. */
  predicate TagsValid(tags: seq<string>) {
    TagsTrimmed(tags) && TagsDistinct(tags)
  }

  /** The guard of `handleAddTag`: the trimmed input is non-empty and new,
      that is, the input is not all whitespace and its trimmed form differs
      from every tag already collected. */
  function CanAddTag(tags: seq<string>, tagInput: string): (r: bool)
    ensures r <==> !Blank(tagInput) && forall k :: 0 <= k < |tags| ==> tags[k] != Trim(tagInput)
  {
    Trim(tagInput) != [] && Trim(tagInput) !in tags
  }

  /** Adding a tag that passes the guard keeps the tag list valid. */
  lemma AddTagKeepsTagsValid(tags: seq<string>, tagInput: string)
    requires TagsValid(tags) && CanAddTag(tags, tagInput)
    ensures TagsValid(tags + [Trim(tagInput)])
  {
    var x := Trim(tagInput);
    var t := tags + [x];
    TrimOfTrimmed(x);
    assert TagsTrimmed(t) by {
      forall k | 0 <= k < |t| ensures t[k] != [] && Trim(t[k]) == t[k] {
        if k < |tags| {
          assert t[k] == tags[k];
        }
      }
    }
    assert TagsDistinct(t) by {
      forall j, k | 0 <= j < k < |t| ensures t[j] != t[k] {
        assert t[j] == tags[j];
        if k == |tags| {
          assert t[k] == x;
        } else {
          assert t[k] == tags[k];
        }
      }
    }
  }

  // ----------------------------------------------------------------------
  // The component's state
  // ----------------------------------------------------------------------

  /** The state of the `ChatRoomList` component; each field is one `useState`. */
  class Directory {
    var rooms: seq<Room>
    var roomName: string
    var tags: seq<string>
    var tagInput: string
    var loading: bool
    var isDialogOpen: bool
    var searchTerm: string
    var filterType: FilterMode

    /** The state every handler keeps: the tag draft stays valid. */
    ghost predicate Valid()
      reads this
    {
      TagsValid(tags)
    }

    /** The initial state of each `useState` hook. */
    constructor ()
      ensures Valid()
      ensures rooms == [] && roomName == "" && tags == [] && tagInput == ""
      ensures loading && !isDialogOpen && searchTerm == "" && filterType == ByName
    {
      rooms, roomName, tags, tagInput := [], "", [], "";
      loading, isDialogOpen, searchTerm, filterType := true, false, "", ByName;
    }

    /** The mount effect `fetchRooms`: `fetched` is what the room listing
        returned (`None` for a null answer). A list, even an empty one,
        replaces `rooms`; loading ends in both cases. */
    method LoadRooms(fetched: Option<seq<Room>>)
      requires Valid()
      modifies this`rooms, this`loading
      ensures Valid()
      ensures rooms == (if fetched.Some? then fetched.value else old(rooms))
      ensures !loading
    {
      loading := true;
      if fetched.Some? {
        rooms := fetched.value;
      }
      loading := false;
    }

    /** `handleCreateRoom`. `created` is the room the backend returns for the
        request (`None` when creation, or the creator's membership insert,
        failed). Returns the request issued, `None` when the name is blank. */
    method CreateRoom(created: Option<Room>) returns (request: Option<CreateRequest>)
      requires Valid()
      modifies this
      ensures Valid()
      ensures request == if Trim(old(roomName)) == [] then None
                         else Some(CreateRequest(Trim(old(roomName)), old(tags)))
      ensures request.None? || created.None? ==> unchanged(this)
      ensures request.Some? && created.Some? ==>
                rooms == [created.value] + old(rooms)
                && roomName == "" && tags == [] && tagInput == "" && !isDialogOpen
                && loading == old(loading) && searchTerm == old(searchTerm)
                && filterType == old(filterType)
    {
      var name := Trim(roomName);
      if name == [] {
        return None;
      }
      request := Some(CreateRequest(name, tags));
      if created.Some? {
        rooms := [created.value] + rooms;
        roomName := "";
        tags := [];
        tagInput := "";
        isDialogOpen := false;
      }
    }

    /** `handleAddTag`: append the trimmed input and clear it when it is
        non-empty and not already a tag; otherwise change nothing. */
    method AddTag()
      requires Valid()
      modifies this`tags, this`tagInput
      ensures Valid()
      ensures CanAddTag(old(tags), old(tagInput)) ==>
                tags == old(tags) + [Trim(old(tagInput))] && tagInput == ""
      ensures !CanAddTag(old(tags), old(tagInput)) ==>
                tags == old(tags) && tagInput == old(tagInput)
    {
      if CanAddTag(tags, tagInput) {
        AddTagKeepsTagsValid(tags, tagInput);
        tags := tags + [Trim(tagInput)];
        tagInput := "";
      }
    }

    /** The room-name input's `onChange`. */
    method SetRoomName(value: string)
      modifies this`roomName
      ensures roomName == value
    {
      roomName := value;
    }

    /** The tag input's `onChange`. */
    method SetTagInput(value: string)
      modifies this`tagInput
      ensures tagInput == value
    {
      tagInput := value;
    }

    /** The search input's `onChange`. */
    method SetSearchTerm(value: string)
      modifies this`searchTerm
      ensures searchTerm == value
    {
      searchTerm := value;
    }

    /** The toggle group's `onValueChange`: only "name" and "tag" are taken;
        deselecting (any other value) keeps the current mode. */
    method SelectFilter(value: string)
      modifies this`filterType
      ensures filterType == if value == "name" then ByName
                            else if value == "tag" then ByTag
                            else old(filterType)
    {
      if value == "name" {
        filterType := ByName;
      } else if value == "tag" {
        filterType := ByTag;
      }
    }

    /** The dialog's `onOpenChange`. */
    method SetDialogOpen(open: bool)
      modifies this`isDialogOpen
      ensures isDialogOpen == open
    {
      isDialogOpen := open;
    }

    /** The rooms the list renders (`filteredRooms`), computed from the
        state: the matching rooms, each as often as in `rooms` and in their
        order there, and all of `rooms` while the search term is blank. */
    function FilteredRooms(): (r: seq<Room>)
      reads this
      ensures IsSubsequence(r, rooms)
      ensures forall x :: x in r <==> x in rooms && Matches(x, searchTerm, filterType)
      ensures forall x :: multiset(r)[x] == if Matches(x, searchTerm, filterType) then multiset(rooms)[x] else 0
      ensures Blank(searchTerm) ==> r == rooms
    {
      FilterSpec(rooms, searchTerm, filterType);
      Filter(rooms, searchTerm, filterType)
    }
  }
}
