/** The chat slice of the store (src/store/chatSlice.ts): the room list,
    the active room id and the global typing flag, and the seven actions
    that change them.

    `Reduce` is the slice's reducer as a function of the old state and the
    action; the class `ChatStore` holds the state in fields and has one
    method per action, each proved to leave exactly the state `Reduce`
    gives. */
module ChatSlice {
  import opened Types
  import opened Seqs

  /** The slice's actions. `AddMessage` carries `now`, the reading of
      `new Date()` that the reducer stores as the room's `updatedAt`. */
  datatype Action =
    | SetChatrooms(rooms: seq<Chatroom>)
    | AddChatroom(room: Chatroom)
    | DeleteChatroom(id: string)
    | SetActiveChatroom(id: string)
    | AddMessage(chatroomId: string, message: Message, now: int)
    | SetIsTyping(typing: bool)
    | LoadMoreMessages(chatroomId: string, messages: seq<Message>)

  /** `initialState`: no rooms, none active, no reply being typed; the
      invariants the reducer keeps hold from the start. */
  function InitialState(): (r: ChatState)
    ensures UniqueIds(r.chatrooms) && ActiveExists(r)
    ensures !HasRoom(r.chatrooms, "") && !r.isTyping
  {
    ChatState([], None, false)
  }

  /** Some room has this id. */
  predicate HasRoom(rooms: seq<Chatroom>, id: string) {
    exists i | 0 <= i < |rooms| :: rooms[i].id == id
  }

  /** No two rooms share an id. */
  predicate UniqueIds(rooms: seq<Chatroom>) {
    forall i, j | 0 <= i < j < |rooms| :: rooms[i].id != rooms[j].id
  }

  /** The active id, when set, names an existing room. */
  predicate ActiveExists(s: ChatState) {
    s.activeChatroomId.Some? ==> HasRoom(s.chatrooms, s.activeChatroomId.value)
  }

  /** `rooms.find(room => room.id === id)`, as the index of the first match. */
  function FindRoom(rooms: seq<Chatroom>, id: string): (r: Option<nat>)
    ensures r.Some? ==> r.value < |rooms| && rooms[r.value].id == id
    ensures r.Some? ==> forall j | 0 <= j < r.value :: rooms[j].id != id
    ensures r.None? <==> !HasRoom(rooms, id)
  {
    if rooms == [] then None
    else if rooms[0].id == id then Some(0)
    else match FindRoom(rooms[1..], id)
      case None => None
      case Some(k) => Some(k + 1)
  }

  /** `rooms.filter(room => room.id !== id)` */
  function WithoutRoom(rooms: seq<Chatroom>, id: string): (r: seq<Chatroom>)
    ensures IsSubsequence(r, rooms) && !HasRoom(r, id)
    ensures !HasRoom(rooms, id) ==> r == rooms
  {
    Filter(rooms, (room: Chatroom) => room.id != id)
  }

  /** The body of `addMessage` on the room list: the first room with the id
      gets the message pushed and `updatedAt` refreshed. */
  function AppendMessage(rooms: seq<Chatroom>, id: string, m: Message, now: int): (r: seq<Chatroom>)
    ensures |r| == |rooms|
    ensures forall j | 0 <= j < |rooms| :: r[j].id == rooms[j].id && r[j].title == rooms[j].title
    ensures forall j | 0 <= j < |rooms| && rooms[j].id != id :: r[j] == rooms[j]
  {
    match FindRoom(rooms, id)
    case None => rooms
    case Some(k) => rooms[k := rooms[k].(messages := rooms[k].messages + [m], updatedAt := now)]
  }

  /** The body of `loadMoreMessages` on the room list: the first room with
      the id gets `batch` spliced before its messages. */
  function PrependMessages(rooms: seq<Chatroom>, id: string, batch: seq<Message>): (r: seq<Chatroom>)
    ensures |r| == |rooms|
    ensures forall j | 0 <= j < |rooms| ::
      r[j].id == rooms[j].id && r[j].title == rooms[j].title && r[j].updatedAt == rooms[j].updatedAt
    ensures forall j | 0 <= j < |rooms| && rooms[j].id != id :: r[j] == rooms[j]
  {
    match FindRoom(rooms, id)
    case None => rooms
    case Some(k) => rooms[k := rooms[k].(messages := batch + rooms[k].messages)]
  }

  /** The reducer. */
  function Reduce(s: ChatState, a: Action): ChatState {
    match a
    case SetChatrooms(rooms) => s.(chatrooms := rooms)
    case AddChatroom(room) => s.(chatrooms := [room] + s.chatrooms)
    case DeleteChatroom(id) =>
      s.(chatrooms := WithoutRoom(s.chatrooms, id),
         activeChatroomId := if s.activeChatroomId == Some(id) then None else s.activeChatroomId)
    case SetActiveChatroom(id) => s.(activeChatroomId := Some(id))
    case AddMessage(id, m, now) => s.(chatrooms := AppendMessage(s.chatrooms, id, m, now))
    case SetIsTyping(b) => s.(isTyping := b)
    case LoadMoreMessages(id, batch) => s.(chatrooms := PrependMessages(s.chatrooms, id, batch))
  }

  /** Applies the actions in order, as successive dispatches do. */
  function ReduceAll(s: ChatState, actions: seq<Action>): ChatState
    decreases |actions|
  {
    if actions == [] then s else ReduceAll(Reduce(s, actions[0]), actions[1..])
  }

  /** Two dispatches in a row. */
  lemma ReduceAllTwo(s: ChatState, a: Action, b: Action)
    ensures ReduceAll(s, [a, b]) == Reduce(Reduce(s, a), b)
  {
    assert [a, b][1..] == [b];
    assert [b][1..] == [];
    assert ReduceAll(Reduce(s, a), [b]) == ReduceAll(Reduce(Reduce(s, a), b), []);
  }

  // ---------------------------------------------------------------------
  // Properties of the reducer

  /** What each action leaves alone: only `setIsTyping` touches the typing
      flag, only `setActiveChatroom` and `deleteChatroom` touch the active
      id, those two and `setIsTyping` leave the room list's ids in place,
      and the message actions keep every room's id and position. */
  lemma ReduceFrame(s: ChatState, a: Action)
    ensures var r := Reduce(s, a);
      && (!a.SetIsTyping? ==> r.isTyping == s.isTyping)
      && (!a.SetActiveChatroom? && !a.DeleteChatroom? ==> r.activeChatroomId == s.activeChatroomId)
      && (a.SetActiveChatroom? || a.SetIsTyping? ==> r.chatrooms == s.chatrooms)
      && (a.AddMessage? || a.LoadMoreMessages? ==>
            |r.chatrooms| == |s.chatrooms| &&
            forall j | 0 <= j < |s.chatrooms| :: r.chatrooms[j].id == s.chatrooms[j].id)
  {
  }

  /** `addChatroom` puts the room at index 0, shifts the others right by
      one and changes nothing else. */
  lemma AddChatroomAtFront(s: ChatState, room: Chatroom)
    ensures var r := Reduce(s, AddChatroom(room));
      && |r.chatrooms| == |s.chatrooms| + 1
      && r.chatrooms[0] == room
      && (forall i | 0 <= i < |s.chatrooms| :: r.chatrooms[i + 1] == s.chatrooms[i])
      && r.activeChatroomId == s.activeChatroomId && r.isTyping == s.isTyping
  {
  }

  /** `addChatroom` does not check the id: ids stay unique exactly when
      the new room's id is fresh. */
  lemma AddChatroomKeepsUniqueIds(s: ChatState, room: Chatroom)
    requires UniqueIds(s.chatrooms)
    ensures UniqueIds(Reduce(s, AddChatroom(room)).chatrooms) <==> !HasRoom(s.chatrooms, room.id)
  {
    var rooms := s.chatrooms;
    var r := [room] + rooms;
    assert Reduce(s, AddChatroom(room)).chatrooms == r;
    if !HasRoom(rooms, room.id) {
      forall i, j | 0 <= i < j < |r| ensures r[i].id != r[j].id {
        assert r[j] == rooms[j - 1];
        if i > 0 {
          assert r[i] == rooms[i - 1];
        }
      }
    } else {
      var k :| 0 <= k < |rooms| && rooms[k].id == room.id;
      assert r[0].id == r[k + 1].id;
    }
  }

  /** `deleteChatroom` removes exactly the rooms with the id and keeps the
      others in order; the active id is cleared iff it was that id. */
  lemma DeleteChatroomRemovesExactly(s: ChatState, id: string)
    ensures var r := Reduce(s, DeleteChatroom(id));
      && IsSubsequence(r.chatrooms, s.chatrooms)
      && !HasRoom(r.chatrooms, id)
      && (forall i | 0 <= i < |s.chatrooms| && s.chatrooms[i].id != id :: s.chatrooms[i] in r.chatrooms)
      && r.activeChatroomId == (if s.activeChatroomId == Some(id) then None else s.activeChatroomId)
      && r.isTyping == s.isTyping
    ensures forall x: Chatroom :: multiset(Reduce(s, DeleteChatroom(id)).chatrooms)[x] ==
                            if x.id != id then multiset(s.chatrooms)[x] else 0
    ensures !HasRoom(s.chatrooms, id) ==> Reduce(s, DeleteChatroom(id)).chatrooms == s.chatrooms
  {
    forall x: Chatroom ensures multiset(Reduce(s, DeleteChatroom(id)).chatrooms)[x] ==
                            if x.id != id then multiset(s.chatrooms)[x] else 0
    {
      FilterCounts(s.chatrooms, (room: Chatroom) => room.id != id, x);
    }
  }

  /** Deleting a room keeps ids unique and keeps the active reference
      pointing at an existing room. */
  lemma DeleteChatroomKeepsInvariants(s: ChatState, id: string)
    requires UniqueIds(s.chatrooms) && ActiveExists(s)
    ensures UniqueIds(Reduce(s, DeleteChatroom(id)).chatrooms)
    ensures ActiveExists(Reduce(s, DeleteChatroom(id)))
  {
    var rooms := s.chatrooms;
    var r := Reduce(s, DeleteChatroom(id));
    SubsequenceKeepsUniqueIds(r.chatrooms, rooms);
    if r.activeChatroomId.Some? {
      var a := r.activeChatroomId.value;
      var i :| 0 <= i < |rooms| && rooms[i].id == a;
      assert rooms[i] in r.chatrooms;
      var j :| 0 <= j < |r.chatrooms| && r.chatrooms[j] == rooms[i];
    }
  }

  lemma {:induction false} SubsequenceKeepsUniqueIds(a: seq<Chatroom>, b: seq<Chatroom>)
    requires IsSubsequence(a, b) && UniqueIds(b)
    ensures UniqueIds(a)
    ensures forall i | 0 <= i < |a| :: HasRoom(b, a[i].id)
    decreases |b|
  {
    if a != [] && b != [] {
      assert UniqueIds(b[1..]) by {
        forall i, j | 0 <= i < j < |b| - 1 ensures b[1..][i].id != b[1..][j].id {
          assert b[1..][i] == b[i + 1] && b[1..][j] == b[j + 1];
        }
      }
      if a[0] == b[0] {
        SubsequenceKeepsUniqueIds(a[1..], b[1..]);
        forall i | 0 <= i < |a| ensures HasRoom(b, a[i].id) {
          if i > 0 {
            assert a[i] == a[1..][i - 1];
            var j :| 0 <= j < |b| - 1 && b[1..][j].id == a[i].id;
            assert b[j + 1].id == a[i].id;
          }
        }
        forall i, j | 0 <= i < j < |a| ensures a[i].id != a[j].id {
          if i == 0 {
            assert a[j] == a[1..][j - 1];
            var k :| 0 <= k < |b| - 1 && b[1..][k].id == a[j].id;
            assert b[k + 1].id == a[j].id;
          } else {
            assert a[i] == a[1..][i - 1] && a[j] == a[1..][j - 1];
          }
        }
      } else {
        SubsequenceKeepsUniqueIds(a, b[1..]);
        forall i | 0 <= i < |a| ensures HasRoom(b, a[i].id) {
          var j :| 0 <= j < |b| - 1 && b[1..][j].id == a[i].id;
          assert b[j + 1].id == a[i].id;
        }
      }
    }
  }

  /** `setActiveChatroom` sets the id whether or not a room has it, and
      changes nothing else. */
  lemma SetActiveChatroomUnchecked(s: ChatState, id: string)
    ensures Reduce(s, SetActiveChatroom(id)) == ChatState(s.chatrooms, Some(id), s.isTyping)
    ensures ActiveExists(Reduce(s, SetActiveChatroom(id))) <==> HasRoom(s.chatrooms, id)
  {
  }

  /** `addMessage` on an existing room: the first room with the id gets
      `old ++ [m]` as messages and `now` as `updatedAt`; every other room,
      the active id and the typing flag are unchanged. */
  lemma AddMessageAppends(s: ChatState, id: string, m: Message, now: int)
    requires HasRoom(s.chatrooms, id)
    ensures var r := Reduce(s, AddMessage(id, m, now));
      var k := FindRoom(s.chatrooms, id).value;
      && |r.chatrooms| == |s.chatrooms|
      && r.chatrooms[k].messages == s.chatrooms[k].messages + [m]
      && r.chatrooms[k].updatedAt == now
      && r.chatrooms[k].id == id && r.chatrooms[k].title == s.chatrooms[k].title
      && r.chatrooms[k].createdAt == s.chatrooms[k].createdAt
      && (forall j | 0 <= j < |s.chatrooms| && j != k :: r.chatrooms[j] == s.chatrooms[j])
      && r.activeChatroomId == s.activeChatroomId && r.isTyping == s.isTyping
  {
  }

  /** `addMessage` and `loadMoreMessages` on an absent room id leave the
      whole state as it was. */
  lemma AbsentRoomIsNoOp(s: ChatState, id: string, m: Message, now: int, batch: seq<Message>)
    requires !HasRoom(s.chatrooms, id)
    ensures Reduce(s, AddMessage(id, m, now)) == s
    ensures Reduce(s, LoadMoreMessages(id, batch)) == s
  {
  }

  /** `loadMoreMessages` on an existing room: its messages become
      `batch ++ old`, so the length grows by `|batch|` and the first
      `|batch|` messages are the batch in order; `updatedAt` and every
      other part of the state are untouched. */
  lemma LoadMoreMessagesPrepends(s: ChatState, id: string, batch: seq<Message>)
    requires HasRoom(s.chatrooms, id)
    ensures var r := Reduce(s, LoadMoreMessages(id, batch));
      var k := FindRoom(s.chatrooms, id).value;
      && |r.chatrooms| == |s.chatrooms|
      && |r.chatrooms[k].messages| == |s.chatrooms[k].messages| + |batch|
      && r.chatrooms[k].messages[..|batch|] == batch
      && r.chatrooms[k].messages[|batch|..] == s.chatrooms[k].messages
      && r.chatrooms[k] == s.chatrooms[k].(messages := r.chatrooms[k].messages)
      && (forall j | 0 <= j < |s.chatrooms| && j != k :: r.chatrooms[j] == s.chatrooms[j])
      && r.activeChatroomId == s.activeChatroomId && r.isTyping == s.isTyping
  {
    var k := FindRoom(s.chatrooms, id).value;
    var msgs := Reduce(s, LoadMoreMessages(id, batch)).chatrooms[k].messages;
    assert msgs == batch + s.chatrooms[k].messages;
  }

  /** The actions that append each message of `ms` to the room, in order;
      `nows[i]` is the clock reading the reducer takes for `ms[i]`. */
  function AppendActions(id: string, ms: seq<Message>, nows: seq<int>): (r: seq<Action>)
    requires |nows| == |ms|
    ensures |r| == |ms|
    ensures forall i | 0 <= i < |ms| :: r[i] == AddMessage(id, ms[i], nows[i])
  {
    if ms == [] then [] else [AddMessage(id, ms[0], nows[0])] + AppendActions(id, ms[1..], nows[1..])
  }

  /** `AppendMessage` once per message of `ms`, in order. */
  function AppendAll(rooms: seq<Chatroom>, id: string, ms: seq<Message>, nows: seq<int>): seq<Chatroom>
    requires |nows| == |ms|
    decreases |ms|
  {
    if ms == [] then rooms else AppendAll(AppendMessage(rooms, id, ms[0], nows[0]), id, ms[1..], nows[1..])
  }

  /** Dispatching the `addMessage` actions for `ms` changes only the room list,
      and changes it as `AppendAll` does. */
  lemma {:induction false} AppendActionsReduce(s: ChatState, id: string, ms: seq<Message>, nows: seq<int>)
    requires |nows| == |ms|
    ensures ReduceAll(s, AppendActions(id, ms, nows)) == s.(chatrooms := AppendAll(s.chatrooms, id, ms, nows))
    decreases |ms|
  {
    if ms != [] {
      var acts := AppendActions(id, ms, nows);
      assert acts[1..] == AppendActions(id, ms[1..], nows[1..]);
      AppendActionsReduce(Reduce(s, acts[0]), id, ms[1..], nows[1..]);
    }
  }

  /** One `AppendMessage` on a list that has the room: only the first room
      with the id changes, and only its messages and `updatedAt`. */
  lemma AppendMessageAt(rooms: seq<Chatroom>, id: string, m: Message, now: int)
    requires HasRoom(rooms, id)
    ensures var k := FindRoom(rooms, id).value;
      AppendMessage(rooms, id, m, now) == rooms[k := rooms[k].(messages := rooms[k].messages + [m], updatedAt := now)]
  {
  }

  /** Room `k` with `ms` appended to its history and `updatedAt` set to the
      last reading of `nows` when anything was appended; the other rooms as
      they are. */
  function Extended(rooms: seq<Chatroom>, k: nat, ms: seq<Message>, nows: seq<int>): seq<Chatroom>
    requires k < |rooms| && |nows| == |ms|
  {
    rooms[k := rooms[k].(messages := rooms[k].messages + ms,
                         updatedAt := if ms == [] then rooms[k].updatedAt else nows[|nows| - 1])]
  }

  /** Appending `m` at `t` and then `ms` extends the room by `[m] + ms`. */
  lemma ExtendedStep(rooms: seq<Chatroom>, k: nat, m: Message, t: int, ms: seq<Message>, nows: seq<int>)
    requires k < |rooms| && |nows| == |ms|
    ensures Extended(rooms[k := rooms[k].(messages := rooms[k].messages + [m], updatedAt := t)], k, ms, nows)
      == Extended(rooms, k, [m] + ms, [t] + nows)
  {
    assert rooms[k].messages + [m] + ms == rooms[k].messages + ([m] + ms);
  }

  /** The room list after successive appends: only the first room with the
      id changes; its history is extended by `ms` in call order and its
      `updatedAt` is the last append's reading. */
  lemma {:induction false} AppendAllExtends(rooms: seq<Chatroom>, id: string, ms: seq<Message>, nows: seq<int>)
    requires HasRoom(rooms, id) && |nows| == |ms|
    ensures AppendAll(rooms, id, ms, nows) == Extended(rooms, FindRoom(rooms, id).value, ms, nows)
    decreases |ms|
  {
    var k := FindRoom(rooms, id).value;
    if ms == [] {
      assert rooms[k].messages + ms == rooms[k].messages;
      assert rooms[k := rooms[k]] == rooms;
    } else {
      var r1 := AppendMessage(rooms, id, ms[0], nows[0]);
      AppendMessageAt(rooms, id, ms[0], nows[0]);
      FindRoomSameIds(rooms, r1, id);
      assert r1[k].id == id;
      AppendAllExtends(r1, id, ms[1..], nows[1..]);
      ExtendedStep(rooms, k, ms[0], nows[0], ms[1..], nows[1..]);
      assert [ms[0]] + ms[1..] == ms;
      assert [nows[0]] + nows[1..] == nows;
    }
  }

  /** Successive `addMessage` calls on an existing room, each with its own
      clock reading, grow its history by one message per call, in call
      order; its `updatedAt` is the last call's reading. Every other room,
      the active id and the typing flag are unchanged. */
  lemma AppendsKeepCallOrder(s: ChatState, id: string, ms: seq<Message>, nows: seq<int>)
    requires HasRoom(s.chatrooms, id) && |nows| == |ms|
    ensures var r := ReduceAll(s, AppendActions(id, ms, nows));
      var k := FindRoom(s.chatrooms, id).value;
      && |r.chatrooms| == |s.chatrooms|
      && FindRoom(r.chatrooms, id) == Some(k)
      && r.chatrooms[k].messages == s.chatrooms[k].messages + ms
      && r.chatrooms[k].updatedAt == (if ms == [] then s.chatrooms[k].updatedAt else nows[|nows| - 1])
      && (forall j | 0 <= j < |s.chatrooms| && j != k :: r.chatrooms[j] == s.chatrooms[j])
      && r.activeChatroomId == s.activeChatroomId && r.isTyping == s.isTyping
  {
    AppendActionsReduce(s, id, ms, nows);
    AppendAllExtends(s.chatrooms, id, ms, nows);
    FindRoomSameIds(s.chatrooms, AppendAll(s.chatrooms, id, ms, nows), id);
  }

  /** Two room lists with the same ids position by position give the same
      `find` result. */
  lemma {:induction false} FindRoomSameIds(a: seq<Chatroom>, b: seq<Chatroom>, id: string)
    requires |a| == |b| && forall i | 0 <= i < |a| :: a[i].id == b[i].id
    ensures FindRoom(a, id) == FindRoom(b, id)
    decreases |a|
  {
    if a != [] && a[0].id != id {
      FindRoomSameIds(a[1..], b[1..], id);
    }
  }

  /** Every action except `setChatrooms` and `addChatroom` keeps room ids
      unique; those two keep them unique when given rooms that do. */
  lemma ReduceKeepsUniqueIds(s: ChatState, a: Action)
    requires UniqueIds(s.chatrooms)
    requires a.SetChatrooms? ==> UniqueIds(a.rooms)
    requires a.AddChatroom? ==> !HasRoom(s.chatrooms, a.room.id)
    ensures UniqueIds(Reduce(s, a).chatrooms)
  {
    match a
    case AddChatroom(room) =>
      AddChatroomKeepsUniqueIds(s, room);
    case DeleteChatroom(id) =>
      SubsequenceKeepsUniqueIds(WithoutRoom(s.chatrooms, id), s.chatrooms);
    case AddMessage(id, m, now) =>
      if HasRoom(s.chatrooms, id) { AddMessageAppends(s, id, m, now); }
    case LoadMoreMessages(id, batch) =>
      if HasRoom(s.chatrooms, id) { LoadMoreMessagesPrepends(s, id, batch); }
    case _ =>
  }

  // ---------------------------------------------------------------------
  // The store

  /** The slice's state, updated in place by one method per reducer. */
  class ChatStore {
    var chatrooms: seq<Chatroom>
    var activeChatroomId: Option<string>
    var isTyping: bool

    function State(): ChatState
      reads this
    {
      ChatState(chatrooms, activeChatroomId, isTyping)
    }

    /** The store starts from `initialState`: no rooms, no active room,
        not typing. */
    constructor ()
      ensures State() == InitialState()
      ensures chatrooms == [] && activeChatroomId == None && !isTyping
    {
      chatrooms := [];
      activeChatroomId := None;
      isTyping := false;
    }

    method SetChatrooms(rooms: seq<Chatroom>)
      modifies this
      ensures State() == Reduce(old(State()), Action.SetChatrooms(rooms))
      ensures chatrooms == rooms
      ensures activeChatroomId == old(activeChatroomId) && isTyping == old(isTyping)
    {
      chatrooms := rooms;
    }

    method AddChatroom(room: Chatroom)
      modifies this
      ensures State() == Reduce(old(State()), Action.AddChatroom(room))
      ensures chatrooms == [room] + old(chatrooms)
      ensures activeChatroomId == old(activeChatroomId) && isTyping == old(isTyping)
    {
      chatrooms := [room] + chatrooms;
    }

    method DeleteChatroom(id: string)
      modifies this
      ensures State() == Reduce(old(State()), Action.DeleteChatroom(id))
      ensures forall i | 0 <= i < |chatrooms| :: chatrooms[i].id != id
      ensures IsSubsequence(chatrooms, old(chatrooms))
      ensures old(activeChatroomId) == Some(id) ==> activeChatroomId == None
      ensures old(activeChatroomId) != Some(id) ==> activeChatroomId == old(activeChatroomId)
      ensures isTyping == old(isTyping)
    {
      chatrooms := WithoutRoom(chatrooms, id);
      if activeChatroomId == Some(id) {
        activeChatroomId := None;
      }
    }

    method SetActiveChatroom(id: string)
      modifies this
      ensures State() == Reduce(old(State()), Action.SetActiveChatroom(id))
      ensures activeChatroomId == Some(id)
      ensures chatrooms == old(chatrooms) && isTyping == old(isTyping)
    {
      activeChatroomId := Some(id);
    }

    method AddMessage(chatroomId: string, message: Message, now: int)
      modifies this
      ensures State() == Reduce(old(State()), Action.AddMessage(chatroomId, message, now))
      ensures !HasRoom(old(chatrooms), chatroomId) ==> chatrooms == old(chatrooms)
      ensures activeChatroomId == old(activeChatroomId) && isTyping == old(isTyping)
    {
      var found := FindRoom(chatrooms, chatroomId);
      if found.Some? {
        var k := found.value;
        var room := chatrooms[k];
        chatrooms := chatrooms[k := room.(messages := room.messages + [message], updatedAt := now)];
      }
    }

    method SetIsTyping(typing: bool)
      modifies this
      ensures State() == Reduce(old(State()), Action.SetIsTyping(typing))
      ensures isTyping == typing
      ensures chatrooms == old(chatrooms) && activeChatroomId == old(activeChatroomId)
    {
      isTyping := typing;
    }

    method LoadMoreMessages(chatroomId: string, messages: seq<Message>)
      modifies this
      ensures State() == Reduce(old(State()), Action.LoadMoreMessages(chatroomId, messages))
      ensures !HasRoom(old(chatrooms), chatroomId) ==> chatrooms == old(chatrooms)
      ensures activeChatroomId == old(activeChatroomId) && isTyping == old(isTyping)
    {
      var found := FindRoom(chatrooms, chatroomId);
      if found.Some? {
        var k := found.value;
        var room := chatrooms[k];
        chatrooms := chatrooms[k := room.(messages := messages + room.messages)];
      }
    }
  }
}
