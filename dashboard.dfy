/** The sidebar of the dashboard (src/components/dashboard/Dashboard.tsx):
    restoring saved rooms, creating and deleting rooms, the title search
    and the shortened titles of the room list.

    `Date.now()` and `new Date()` are read by the caller and passed in;
    `toLowerCase` is the caller-supplied map `lower`; the search runs on
    the debounced query, which is passed in as it stands when the list is
    drawn. */
module Dashboard {
  import opened Types
  import opened Strings
  import opened Seqs
  import opened ChatSlice

  // ---------------------------------------------------------------------
  // Shortened titles

  /** `room.title.slice(0, 25)` followed by `"...."` for a title longer
      than 25 characters and by `" "` otherwise. */
  function DisplayTitle(title: string): (r: string)
    ensures 1 <= |r| <= 29
    ensures |title| <= 25 ==> r == title + " "
    ensures |title| > 25 ==> |r| == 29 && r[..25] == title[..25] && r[25..] == "...."
  {
    title[..if |title| < 25 then |title| else 25] + (if |title| > 25 then "...." else " ")
  }

  /** A title of at most 25 characters is shown whole, so two such titles
      are told apart in the list. */
  lemma ShortTitlesDistinguishable(a: string, b: string)
    requires |a| <= 25 && |b| <= 25 && DisplayTitle(a) == DisplayTitle(b)
    ensures a == b
  {
    assert a == DisplayTitle(a)[..|a|];
    assert b == DisplayTitle(b)[..|b|];
  }

  /** Longer titles are shown by their first 25 characters alone: two of
      them that agree on those look the same, whatever follows. */
  lemma LongTitlesShareDisplay(a: string, b: string)
    requires |a| > 25 && |b| > 25 && a[..25] == b[..25]
    ensures DisplayTitle(a) == DisplayTitle(b)
  {
    var da, db := DisplayTitle(a), DisplayTitle(b);
    assert da == da[..25] + da[25..];
    assert db == db[..25] + db[25..];
  }

  // ---------------------------------------------------------------------
  // Search

  /** `room.title.toLowerCase().includes(query.toLowerCase())` */
  predicate MatchesQuery(room: Chatroom, query: string, lower: string -> string) {
    Contains(lower(room.title), lower(query))
  }

  /** `filteredChatrooms`: the rooms whose lowered title includes the
      lowered query, in their order in the store. */
  function FilteredChatrooms(rooms: seq<Chatroom>, query: string, lower: string -> string): (r: seq<Chatroom>)
    ensures IsSubsequence(r, rooms)
    ensures forall i | 0 <= i < |r| :: MatchesQuery(r[i], query, lower)
    ensures forall i | 0 <= i < |rooms| :: MatchesQuery(rooms[i], query, lower) ==> rooms[i] in r
  {
    Filter(rooms, (room: Chatroom) => MatchesQuery(room, query, lower))
  }

  /** A room shows up in the filtered list as often as it is in the store
      when it matches the query, and not at all when it does not. */
  lemma FilteredChatroomsCounts(rooms: seq<Chatroom>, query: string, lower: string -> string)
    ensures forall x: Chatroom :: multiset(FilteredChatrooms(rooms, query, lower))[x] ==
                            if MatchesQuery(x, query, lower) then multiset(rooms)[x] else 0
  {
    forall x: Chatroom ensures multiset(FilteredChatrooms(rooms, query, lower))[x] ==
                            if MatchesQuery(x, query, lower) then multiset(rooms)[x] else 0
    {
      FilterCounts(rooms, (room: Chatroom) => MatchesQuery(room, query, lower), x);
    }
  }

  /** With an empty search box every room is listed, in store order (the
      lowercase of the empty string being empty). */
  lemma EmptyQueryKeepsAll(rooms: seq<Chatroom>, lower: string -> string)
    requires lower("") == ""
    ensures FilteredChatrooms(rooms, "", lower) == rooms
  {
    forall i | 0 <= i < |rooms| ensures MatchesQuery(rooms[i], "", lower) {
      ContainsEmpty(lower(rooms[i].title));
    }
  }

  /** The list shows each room at most once: a filtered list of rooms with
      distinct ids has distinct ids, all of them rooms of the store. */
  lemma FilteredKeepsUniqueIds(rooms: seq<Chatroom>, query: string, lower: string -> string)
    requires UniqueIds(rooms)
    ensures UniqueIds(FilteredChatrooms(rooms, query, lower))
    ensures forall i | 0 <= i < |FilteredChatrooms(rooms, query, lower)| ::
      HasRoom(rooms, FilteredChatrooms(rooms, query, lower)[i].id)
  {
    SubsequenceKeepsUniqueIds(FilteredChatrooms(rooms, query, lower), rooms);
  }

  // ---------------------------------------------------------------------
  // Creating a room

  /** The room `handleCreateChatroom` builds: id `chatroom-${Date.now()}`
      for the reading `idTime`, the title as typed (not trimmed), no
      messages, and both dates at `now`. */
  function NewChatroom(title: string, idTime: int, now: int): (room: Chatroom)
    ensures room.title == title && room.messages == []
    ensures room.createdAt == now && room.updatedAt == now
  {
    Chatroom("chatroom-" + IntToString(idTime), title, [], now, now)
  }

  /** Rooms created at different milliseconds get different ids; two
      created within the same millisecond would share one. */
  lemma NewChatroomIdsDiffer(t1: string, idTime1: int, now1: int, t2: string, idTime2: int, now2: int)
    ensures NewChatroom(t1, idTime1, now1).id == NewChatroom(t2, idTime2, now2).id <==> idTime1 == idTime2
  {
    if NewChatroom(t1, idTime1, now1).id == NewChatroom(t2, idTime2, now2).id {
      PrefixCancel("chatroom-", IntToString(idTime1), IntToString(idTime2));
      IntToStringInjective(idTime1, idTime2);
    }
  }

  /** The two dispatches of a successful create, in order. */
  function CreateActions(room: Chatroom): seq<Action> {
    [AddChatroom(room), SetActiveChatroom(room.id)]
  }

  /** After the create the new room heads the list, is the active room,
      and the rest of the list and the typing flag are as before; given a
      fresh id, ids stay unique. */
  lemma CreateThenActivate(s: ChatState, room: Chatroom)
    ensures var r := ReduceAll(s, CreateActions(room));
      && r.chatrooms == [room] + s.chatrooms
      && r.activeChatroomId == Some(room.id)
      && r.isTyping == s.isTyping
      && ActiveExists(r)
    ensures UniqueIds(s.chatrooms) && !HasRoom(s.chatrooms, room.id) ==>
      UniqueIds(ReduceAll(s, CreateActions(room)).chatrooms)
  {
    ReduceAllTwo(s, AddChatroom(room), SetActiveChatroom(room.id));
    var r := ReduceAll(s, CreateActions(room));
    assert r.chatrooms[0].id == room.id;
    if UniqueIds(s.chatrooms) && !HasRoom(s.chatrooms, room.id) {
      AddChatroomKeepsUniqueIds(s, room);
    }
  }

  // ---------------------------------------------------------------------
  // The dashboard component

  /** The dashboard's local state beside the shared store. */
  class DashboardView {
    const store: ChatStore
    var newChatroomTitle: string
    var createModalOpened: bool
    var loading: bool

    constructor (store: ChatStore)
      ensures this.store == store
      ensures newChatroomTitle == "" && !createModalOpened && loading
    {
      this.store := store;
      newChatroomTitle := "";
      createModalOpened := false;
      loading := true;
    }

    /** The mount effect: saved rooms replace the store's list only when
        there is at least one; an empty list leaves the store alone. The
        skeleton is hidden either way. */
    method LoadSavedChatrooms(saved: seq<Chatroom>)
      modifies this, store
      ensures saved != [] ==> store.State() == Reduce(old(store.State()), SetChatrooms(saved))
      ensures saved == [] ==> store.State() == old(store.State())
      ensures !loading
      ensures newChatroomTitle == old(newChatroomTitle) && createModalOpened == old(createModalOpened)
    {
      if |saved| > 0 {
        store.SetChatrooms(saved);
      }
      loading := false;
    }

    /** The title box's `onChange`. */
    method SetNewChatroomTitle(title: string)
      modifies this
      ensures newChatroomTitle == title
      ensures createModalOpened == old(createModalOpened) && loading == old(loading)
    {
      newChatroomTitle := title;
    }

    /** The "New chat" button opens the dialog. */
    method OpenCreateModal()
      modifies this
      ensures createModalOpened
      ensures newChatroomTitle == old(newChatroomTitle) && loading == old(loading)
    {
      createModalOpened := true;
    }

    /** Closing the dialog keeps whatever title was typed. */
    method CloseCreateModal()
      modifies this
      ensures !createModalOpened
      ensures newChatroomTitle == old(newChatroomTitle) && loading == old(loading)
    {
      createModalOpened := false;
    }

    /** `handleCreateChatroom`. A title made only of whitespace is refused
        and nothing changes; otherwise the new room is added and then made
        active, the title box is cleared and the dialog closed. */
    method HandleCreateChatroom(idTime: int, now: int) returns (created: Option<Chatroom>)
      modifies this, store
      ensures created.None? <==> IsBlank(old(newChatroomTitle))
      ensures created.Some? ==>
        && created.value == NewChatroom(old(newChatroomTitle), idTime, now)
        && store.State() == ReduceAll(old(store.State()), CreateActions(created.value))
        && newChatroomTitle == "" && !createModalOpened
      ensures created.None? ==>
        && store.State() == old(store.State())
        && newChatroomTitle == old(newChatroomTitle) && createModalOpened == old(createModalOpened)
      ensures loading == old(loading)
    {
      TrimEmptyIffBlank(newChatroomTitle);
      if Trim(newChatroomTitle) == "" {
        return None;
      }
      var room := NewChatroom(newChatroomTitle, idTime, now);
      store.AddChatroom(room);
      store.SetActiveChatroom(room.id);
      ReduceAllTwo(old(store.State()), AddChatroom(room), SetActiveChatroom(room.id));
      newChatroomTitle := "";
      createModalOpened := false;
      created := Some(room);
    }

    /** `handleDeleteChatroom`: one `deleteChatroom` for the clicked id. */
    method HandleDeleteChatroom(id: string, title: string)
      modifies store
      ensures store.State() == Reduce(old(store.State()), DeleteChatroom(id))
    {
      store.DeleteChatroom(id);
    }

    /** A click on a room of the list makes it the active one. */
    method SelectChatroom(id: string)
      modifies store
      ensures store.State() == Reduce(old(store.State()), SetActiveChatroom(id))
    {
      store.SetActiveChatroom(id);
    }
  }
}
