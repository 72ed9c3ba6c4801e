/** The logic of the thread view (src/components/chat/ChatInterface.tsx):
    the history pager behind `handleScroll`, the send guard and the reply
    routing of `handleSendMessage`, and the size check of
    `handleImageSelect`.

    Every `setTimeout` is split into the step that schedules it and a
    separate step for when it fires; the values the timer's closure
    captured (`page`, `activeChatroomId`) travel with the pending entry.
    `Date.now()`/`new Date()` become the parameter `now`, and
    `Math.random()` the parameters `picks` and `index`. */
module ChatInterface {
  import opened Types
  import opened Strings
  import opened ChatSlice
  import opened DummyMessages
  import opened SimulateAI

  /** Messages per history page. */
  const PAGE_SIZE := 20
  /** A completed load of this page or a later one ends the history. */
  const LAST_PAGE := 4
  /** Throttle the view passes to `simulateAIResponse`. */
  const REPLY_DELAY_MS := 2500
  /** Largest accepted image, 5 MiB. */
  const MAX_IMAGE_BYTES := 5 * 1024 * 1024

  // ---------------------------------------------------------------------
  // History pager

  /** A history timer that has been scheduled and has not fired: the room
      and the page its closure captured. */
  datatype PendingLoad = PendingLoad(roomId: string, page: int)

  /** `loadingMore`, `hasMore` and `page`, and the pending timer. */
  datatype Pager = Pager(loadingMore: bool, hasMore: bool, page: int, pending: Option<PendingLoad>)

  function InitialPager(): Pager {
    Pager(false, true, 0, None)
  }

  /** The first message number of the batch loaded when page `page` completes. */
  function BatchOffset(page: int): int {
    (page + 1) * 20
  }

  /** The guard of `handleScroll`: a container, a truthy active id, no load
      in flight, more history, and the container scrolled to the top. */
  predicate ScrollTriggers(p: Pager, hasContainer: bool, activeId: Option<string>, scrollTop: int) {
    hasContainer && Truthy(activeId) && !p.loadingMore && p.hasMore && scrollTop == 0
  }

  /** `handleScroll`, synchronous part: a scroll changes the pager exactly
      when the guard holds, and then only starts a load of the current page
      for the active room. */
  function OnScroll(p: Pager, hasContainer: bool, activeId: Option<string>, scrollTop: int): (r: Pager)
    ensures r.page == p.page && r.hasMore == p.hasMore
    ensures r != p <==> ScrollTriggers(p, hasContainer, activeId, scrollTop)
    ensures ScrollTriggers(p, hasContainer, activeId, scrollTop) ==>
      r.loadingMore && r.pending == Some(PendingLoad(activeId.value, p.page))
  {
    if !hasContainer || !Truthy(activeId) || p.loadingMore || !p.hasMore then p
    else if scrollTop == 0 then
      p.(loadingMore := true, pending := Some(PendingLoad(activeId.value, p.page)))
    else p
  }

  /** `handleScroll`, the timer: the captured page `q` becomes `q + 1`, the
      load ends, and a completed page `q >= 4` ends the history. */
  function OnLoadComplete(p: Pager): (r: Pager)
    requires p.pending.Some?
    ensures !r.loadingMore && r.pending.None?
    ensures r.page == p.pending.value.page + 1
    ensures r.hasMore <==> p.hasMore && p.pending.value.page < LAST_PAGE
  {
    var q := p.pending.value.page;
    Pager(false, if q >= LAST_PAGE then false else p.hasMore, q + 1, None)
  }

  /** The pager states reachable from `InitialPager()`: `page` counts the
      completed loads, there is more history exactly while fewer than five
      have completed, and a load is in flight exactly when a timer is
      pending, for the current page. */
  predicate PagerInv(p: Pager) {
    && 0 <= p.page <= LAST_PAGE + 1
    && (p.hasMore <==> p.page <= LAST_PAGE)
    && (p.loadingMore <==> p.pending.Some?)
    && (p.pending.Some? ==> p.pending.value.page == p.page && p.page <= LAST_PAGE)
  }

  /** A scroll leaves the pager as it is unless the guard holds; when it
      holds the load starts and captures the active room and the page. */
  lemma ScrollGate(p: Pager, hasContainer: bool, activeId: Option<string>, scrollTop: int)
    ensures !ScrollTriggers(p, hasContainer, activeId, scrollTop) ==>
      OnScroll(p, hasContainer, activeId, scrollTop) == p
    ensures ScrollTriggers(p, hasContainer, activeId, scrollTop) ==>
      OnScroll(p, hasContainer, activeId, scrollTop)
        == Pager(true, p.hasMore, p.page, Some(PendingLoad(activeId.value, p.page)))
  {
  }

  /** Once a load has started, every further scroll is ignored until its
      timer fires. */
  lemma SecondTriggerBlocked(
    p: Pager, hasContainer: bool, activeId: Option<string>, scrollTop: int,
    hasContainer2: bool, activeId2: Option<string>, scrollTop2: int)
    requires ScrollTriggers(p, hasContainer, activeId, scrollTop)
    ensures var q := OnScroll(p, hasContainer, activeId, scrollTop);
      q.loadingMore && OnScroll(q, hasContainer2, activeId2, scrollTop2) == q
  {
  }

  /** A completed load advances the page by one, ends the load, and leaves
      more history exactly when fewer than five pages have completed. */
  lemma LoadCompleteAdvances(p: Pager)
    requires PagerInv(p) && p.pending.Some?
    ensures var r := OnLoadComplete(p);
      && PagerInv(r)
      && r.page == p.page + 1 && !r.loadingMore && r.pending.None?
      && (r.hasMore <==> r.page <= LAST_PAGE)
  {
  }

  /** What can happen to the pager: a scroll event, or the history timer
      firing. */
  datatype PagerEvent =
    | Scroll(hasContainer: bool, activeId: Option<string>, scrollTop: int)
    | LoadTimerFires

  /** One event; the timer only fires when one is pending. */
  function Step(p: Pager, e: PagerEvent): Pager {
    match e
    case Scroll(c, a, t) => OnScroll(p, c, a, t)
    case LoadTimerFires => if p.pending.Some? then OnLoadComplete(p) else p
  }

  function Run(p: Pager, es: seq<PagerEvent>): Pager
    decreases |es|
  {
    if es == [] then p else Run(Step(p, es[0]), es[1..])
  }

  /** The loads completed along `es`, in order, as their captured room and page. */
  function Loads(p: Pager, es: seq<PagerEvent>): seq<PendingLoad>
    decreases |es|
  {
    if es == [] then []
    else (if es[0].LoadTimerFires? && p.pending.Some? then [p.pending.value] else [])
         + Loads(Step(p, es[0]), es[1..])
  }

  lemma StepKeepsInv(p: Pager, e: PagerEvent)
    requires PagerInv(p)
    ensures PagerInv(Step(p, e))
    ensures Step(p, e).page == p.page + (if e.LoadTimerFires? && p.pending.Some? then 1 else 0)
  {
  }

  /** Along any events the invariant holds, and the completed loads are
      the pages `p.page, p.page + 1, …` in order, one per page advanced. */
  lemma {:induction false} LoadsFollowPages(p: Pager, es: seq<PagerEvent>)
    requires PagerInv(p)
    ensures PagerInv(Run(p, es))
    ensures |Loads(p, es)| == Run(p, es).page - p.page
    ensures forall i | 0 <= i < |Loads(p, es)| :: Loads(p, es)[i].page == p.page + i
    decreases |es|
  {
    if es != [] {
      var q := Step(p, es[0]);
      StepKeepsInv(p, es[0]);
      LoadsFollowPages(q, es[1..]);
      var head := if es[0].LoadTimerFires? && p.pending.Some? then [p.pending.value] else [];
      var tail := Loads(q, es[1..]);
      assert Loads(p, es) == head + tail;
      forall i | 0 <= i < |Loads(p, es)| ensures Loads(p, es)[i].page == p.page + i {
        if head != [] && i == 0 {
          assert Loads(p, es)[0] == p.pending.value;
        } else {
          assert Loads(p, es)[i] == tail[i - |head|];
        }
      }
    }
  }

  /** From a fresh view at most five loads ever complete, the `i`-th for
      page `i`, so the `i`-th batch starts at message number `20 * (i + 1)`
      and the batches cover pairwise disjoint number ranges. */
  lemma AtMostFiveLoads(es: seq<PagerEvent>)
    ensures var ls := Loads(InitialPager(), es);
      && |ls| <= LAST_PAGE + 1
      && (forall i | 0 <= i < |ls| :: BatchOffset(ls[i].page) == PAGE_SIZE * (i + 1))
      && (forall i, j | 0 <= i < j < |ls| ::
            BatchOffset(ls[i].page) + PAGE_SIZE <= BatchOffset(ls[j].page))
  {
    LoadsFollowPages(InitialPager(), es);
  }

  /** Batches loaded for two different pages share no message id. */
  lemma PageBatchesDisjoint(
    a: seq<Message>, pageA: int, nowA: int,
    b: seq<Message>, pageB: int, nowB: int)
    requires pageA != pageB
    requires IsBatchShape(a, PAGE_SIZE, BatchOffset(pageA), nowA)
    requires IsBatchShape(b, PAGE_SIZE, BatchOffset(pageB), nowB)
    ensures forall i, j | 0 <= i < |a| && 0 <= j < |b| :: a[i].id != b[j].id
  {
    if pageA < pageB {
      assert BatchOffset(pageA) + PAGE_SIZE <= BatchOffset(pageB);
    } else {
      assert BatchOffset(pageB) + PAGE_SIZE <= BatchOffset(pageA);
    }
    BatchesDisjoint(a, PAGE_SIZE, BatchOffset(pageA), nowA, b, PAGE_SIZE, BatchOffset(pageB), nowB);
  }

  // ---------------------------------------------------------------------
  // Sending and replies

  /** The guard of `handleSendMessage`: a truthy active id, and a non-blank
      input or a selected image. `isTyping` plays no part. */
  predicate SendAccepted(activeId: Option<string>, input: string, image: Option<string>) {
    Truthy(activeId) && (Trim(input) != "" || Truthy(image))
  }

  /** The Send button is enabled: something to send, and no reply being typed. */
  predicate SendButtonEnabled(input: string, image: Option<string>, isTyping: bool) {
    !((Trim(input) == "" && !Truthy(image)) || isTyping)
  }

  /** While a reply is being typed the button refuses what the guard (and
      so the Enter key) accepts, and only then do the two differ. */
  lemma EnterBypassesTypingGuard(activeId: Option<string>, input: string, image: Option<string>, isTyping: bool)
    requires Truthy(activeId)
    ensures SendButtonEnabled(input, image, isTyping) ==> SendAccepted(activeId, input, image)
    ensures !isTyping ==> (SendButtonEnabled(input, image, isTyping) <==> SendAccepted(activeId, input, image))
    ensures isTyping ==> !SendButtonEnabled(input, image, isTyping)
  {
  }

  /** The user's message: id `msg-<now>`, the untrimmed input, and the
      image only when it is truthy (`selectedImage || undefined`). */
  function UserMessage(now: int, input: string, image: Option<string>): (m: Message)
    ensures m.sender == User && m.content == input && m.timestamp == now
    ensures m.image.Some? <==> Truthy(image)
    ensures m.image.Some? ==> m.image == image
  {
    Message("msg-" + IntToString(now), input, User, now, if Truthy(image) then image else None)
  }

  /** The reply: id `msg-<now>-ai`, sender "ai", no image. */
  function AiMessage(now: int, content: string): (m: Message)
    ensures m.sender == Ai && m.content == content && m.timestamp == now && m.image.None?
  {
    Message("msg-" + IntToString(now) + "-ai", content, Ai, now, None)
  }

  /** A user message and a reply never share an id: the user's id ends in
      a digit, the reply's in "-ai". */
  lemma UserAndAiIdsDiffer(t: int, u: int, input: string, image: Option<string>, content: string)
    ensures UserMessage(t, input, image).id != AiMessage(u, content).id
  {
    var a := UserMessage(t, input, image).id;
    var b := AiMessage(u, content).id;
    var digits := IntToString(t);
    assert a[|a| - 1] == digits[|digits| - 1];
    assert b[|b| - 1] == 'i';
  }

  /** The dispatch the view makes for one callback of `simulateAIResponse`;
      the reply goes to `roomId`, the room captured at send time. */
  function CallbackAction(roomId: string, now: int, c: Callback): Action {
    match c
    case TypingStart => Action.SetIsTyping(true)
    case TypingEnd => Action.SetIsTyping(false)
    case Response(text) => Action.AddMessage(roomId, AiMessage(now, text), now)
  }

  function CallbackActions(roomId: string, now: int, cs: seq<Callback>): (r: seq<Action>)
    ensures |r| == |cs|
    ensures forall i | 0 <= i < |cs| :: r[i] == CallbackAction(roomId, now, cs[i])
  {
    if cs == [] then [] else [CallbackAction(roomId, now, cs[0])] + CallbackActions(roomId, now, cs[1..])
  }

  /** The dispatches of an accepted send: the user message, then the
      synchronous callbacks of `simulateAIResponse(…, 2500)`. */
  function SendActions(roomId: string, input: string, image: Option<string>, now: int): seq<Action> {
    [Action.AddMessage(roomId, UserMessage(now, input, image), now)]
      + CallbackActions(roomId, now, SimulateAIResponse(Some(REPLY_DELAY_MS)).immediate)
  }

  /** The dispatches of the reply timer, for the draw `index`. */
  function ReplyActions(roomId: string, index: int, now: int): seq<Action>
    requires 0 <= index < |AI_RESPONSES|
  {
    CallbackActions(roomId, now, Deferred(index))
  }

  lemma SendActionsUnfold(roomId: string, input: string, image: Option<string>, now: int)
    ensures SendActions(roomId, input, image, now)
      == [Action.AddMessage(roomId, UserMessage(now, input, image), now), Action.SetIsTyping(true)]
  {
  }

  lemma ReplyActionsUnfold(roomId: string, index: int, now: int)
    requires 0 <= index < |AI_RESPONSES|
    ensures ReplyActions(roomId, index, now)
      == [Action.SetIsTyping(false), Action.AddMessage(roomId, AiMessage(now, GenerateAIResponse(index)), now)]
  {
  }

  /** Between a send and its reply the typing flag is set, the user's
      message is the last one of the room it was sent to, that room's
      `updatedAt` is the send time, and every other room is untouched. */
  lemma SendShowsTyping(s: ChatState, roomId: string, input: string, image: Option<string>, now: int)
    requires HasRoom(s.chatrooms, roomId)
    ensures var r := ReduceAll(s, SendActions(roomId, input, image, now));
      var k := FindRoom(s.chatrooms, roomId).value;
      && r.isTyping
      && |r.chatrooms| == |s.chatrooms|
      && r.chatrooms[k].messages == s.chatrooms[k].messages + [UserMessage(now, input, image)]
      && r.chatrooms[k].updatedAt == now
      && r.chatrooms[k].id == roomId && r.chatrooms[k].title == s.chatrooms[k].title
      && r.chatrooms[k].createdAt == s.chatrooms[k].createdAt
      && (forall j | 0 <= j < |s.chatrooms| && j != k :: r.chatrooms[j] == s.chatrooms[j])
      && r.activeChatroomId == s.activeChatroomId
  {
    var m := UserMessage(now, input, image);
    SendActionsUnfold(roomId, input, image, now);
    ReduceAllTwo(s, Action.AddMessage(roomId, m, now), Action.SetIsTyping(true));
    AddMessageAppends(s, roomId, m, now);
  }

  /** The reply lands in the room captured at send time even when another
      room became active meanwhile: that room gains one "ai" message with a
      canned, non-empty text, the typing flag is cleared, and the active id
      stays the newly chosen one. */
  lemma ReplyGoesToCapturedRoom(s: ChatState, roomId: string, other: string, index: int, now: int)
    requires HasRoom(s.chatrooms, roomId) && 0 <= index < |AI_RESPONSES|
    ensures var r := ReduceAll(Reduce(s, Action.SetActiveChatroom(other)), ReplyActions(roomId, index, now));
      var k := FindRoom(s.chatrooms, roomId).value;
      var reply := AiMessage(now, GenerateAIResponse(index));
      && |r.chatrooms| == |s.chatrooms|
      && r.chatrooms[k].id == roomId
      && r.chatrooms[k].messages == s.chatrooms[k].messages + [reply]
      && reply.sender == Ai && reply.content in AI_RESPONSES && reply.content != ""
      && (forall j | 0 <= j < |s.chatrooms| && j != k :: r.chatrooms[j] == s.chatrooms[j])
      && r.activeChatroomId == Some(other) && !r.isTyping
  {
    var s1 := Reduce(s, Action.SetActiveChatroom(other));
    var reply := AiMessage(now, GenerateAIResponse(index));
    ReplyActionsUnfold(roomId, index, now);
    ReduceAllTwo(s1, Action.SetIsTyping(false), Action.AddMessage(roomId, reply, now));
    var s2 := Reduce(s1, Action.SetIsTyping(false));
    assert s2.chatrooms == s.chatrooms;
    AddMessageAppends(s2, roomId, reply, now);
  }

  /** `handleImageSelect`'s file: its size and the data URL the reader
      produces for it. */
  datatype ImageFile = ImageFile(size: int, dataUrl: string)

  /** The thread view's state. `pendingReplies` holds, in firing order, the
      room captured by each reply timer not yet fired; they all have the
      same delay, so they fire in the order they were scheduled. */
  class ThreadView {
    const store: ChatStore
    var inputMessage: string
    var selectedImage: Option<string>
    var loadingMore: bool
    var hasMore: bool
    var page: int
    var pendingLoad: Option<PendingLoad>
    var pendingReplies: seq<string>

    function PagerState(): Pager
      reads this
    {
      Pager(loadingMore, hasMore, page, pendingLoad)
    }

    constructor (store: ChatStore)
      ensures this.store == store
      ensures inputMessage == "" && selectedImage == None && pendingReplies == []
      ensures PagerState() == InitialPager() && PagerInv(PagerState())
    {
      this.store := store;
      inputMessage := "";
      selectedImage := None;
      loadingMore := false;
      hasMore := true;
      page := 0;
      pendingLoad := None;
      pendingReplies := [];
    }

    /** Typing in the input. */
    method SetInput(value: string)
      modifies this
      ensures inputMessage == value
      ensures selectedImage == old(selectedImage) && PagerState() == old(PagerState())
      ensures pendingReplies == old(pendingReplies)
    {
      inputMessage := value;
    }

    /** "Remove" under the image preview. */
    method RemoveImage()
      modifies this
      ensures selectedImage == None
      ensures inputMessage == old(inputMessage) && PagerState() == old(PagerState())
      ensures pendingReplies == old(pendingReplies)
    {
      selectedImage := None;
    }

    /** `handleScroll`, synchronous part. */
    method HandleScroll(hasContainer: bool, scrollTop: int)
      requires PagerInv(PagerState())
      modifies this
      ensures PagerState() == OnScroll(old(PagerState()), hasContainer, store.activeChatroomId, scrollTop)
      ensures PagerInv(PagerState())
      ensures inputMessage == old(inputMessage) && selectedImage == old(selectedImage)
      ensures pendingReplies == old(pendingReplies)
    {
      var activeId := store.activeChatroomId;
      if !hasContainer || activeId.None? || activeId.value == "" || loadingMore || !hasMore {
        return;
      }
      if scrollTop == 0 {
        loadingMore := true;
        pendingLoad := Some(PendingLoad(activeId.value, page));
      }
    }

    /** The history timer fires: twenty messages numbered from
        `(page + 1) * 20`, for the captured page, go in front of the
        captured room's history, and the pager advances. */
    method CompleteLoad(now: int, picks: seq<nat>) returns (batch: seq<Message>)
      requires pendingLoad.Some? && PagerInv(PagerState())
      requires ValidPicks(picks) && PAGE_SIZE <= |picks|
      modifies this, store
      ensures IsBatch(batch, PAGE_SIZE, BatchOffset(old(pendingLoad).value.page), now, picks)
      ensures store.State()
        == Reduce(old(store.State()), Action.LoadMoreMessages(old(pendingLoad).value.roomId, batch))
      ensures PagerState() == OnLoadComplete(old(PagerState()))
      ensures PagerInv(PagerState())
      ensures inputMessage == old(inputMessage) && selectedImage == old(selectedImage)
      ensures pendingReplies == old(pendingReplies)
    {
      var q := pendingLoad.value;
      batch := GenerateDummyMessages(20, Some((q.page + 1) * 20), now, picks);
      store.LoadMoreMessages(q.roomId, batch);
      page := q.page + 1;
      loadingMore := false;
      if q.page >= 4 {
        hasMore := false;
      }
      pendingLoad := None;
    }

    /** `handleSendMessage`. On an accepted send the user message and
        `setIsTyping(true)` are dispatched, the input and image are cleared
        and a reply timer for the current room is scheduled; otherwise
        nothing changes. */
    method HandleSendMessage(now: int) returns (sent: bool)
      modifies this, store
      ensures sent == SendAccepted(old(store.activeChatroomId), old(inputMessage), old(selectedImage))
      ensures sent ==>
        && store.State() == ReduceAll(old(store.State()),
             SendActions(old(store.activeChatroomId).value, old(inputMessage), old(selectedImage), now))
        && inputMessage == "" && selectedImage == None
        && pendingReplies == old(pendingReplies) + [old(store.activeChatroomId).value]
      ensures !sent ==>
        && store.State() == old(store.State())
        && inputMessage == old(inputMessage) && selectedImage == old(selectedImage)
        && pendingReplies == old(pendingReplies)
      ensures PagerState() == old(PagerState())
    {
      var activeId := store.activeChatroomId;
      if !SendAccepted(activeId, inputMessage, selectedImage) {
        return false;
      }
      var roomId := activeId.value;
      var userMessage := UserMessage(now, inputMessage, selectedImage);
      SendActionsUnfold(roomId, inputMessage, selectedImage, now);
      ghost var s0 := store.State();
      store.AddMessage(roomId, userMessage, now);
      inputMessage := "";
      selectedImage := None;
      // simulateAIResponse(…, 2500): onTypingStart runs at once, the rest is deferred
      store.SetIsTyping(true);
      pendingReplies := pendingReplies + [roomId];
      ReduceAllTwo(s0, Action.AddMessage(roomId, userMessage, now), Action.SetIsTyping(true));
      sent := true;
    }

    /** The oldest reply timer fires: `setIsTyping(false)`, then the reply
        for the draw `index`, to the room captured when it was scheduled. */
    method CompleteReply(index: int, now: int)
      requires |pendingReplies| > 0 && 0 <= index < |AI_RESPONSES|
      modifies this, store
      ensures store.State() == ReduceAll(old(store.State()), ReplyActions(old(pendingReplies)[0], index, now))
      ensures pendingReplies == old(pendingReplies)[1..]
      ensures inputMessage == old(inputMessage) && selectedImage == old(selectedImage)
      ensures PagerState() == old(PagerState())
    {
      var roomId := pendingReplies[0];
      ghost var s0 := store.State();
      store.SetIsTyping(false);
      var reply := AiMessage(now, GenerateAIResponse(index));
      store.AddMessage(roomId, reply, now);
      pendingReplies := pendingReplies[1..];
      ReplyActionsUnfold(roomId, index, now);
      ReduceAllTwo(s0, Action.SetIsTyping(false), Action.AddMessage(roomId, reply, now));
    }

    /** `handleImageSelect`: no file does nothing, a file over 5 MiB is
        refused, any other becomes the selected image (the reader's
        asynchronous load is taken as immediate). */
    method HandleImageSelect(file: Option<ImageFile>) returns (accepted: bool)
      modifies this
      ensures accepted <==> file.Some? && file.value.size <= MAX_IMAGE_BYTES
      ensures accepted ==> selectedImage == Some(file.value.dataUrl)
      ensures !accepted ==> selectedImage == old(selectedImage)
      ensures inputMessage == old(inputMessage) && PagerState() == old(PagerState())
      ensures pendingReplies == old(pendingReplies)
    {
      if file.None? {
        return false;
      }
      if file.value.size > 5 * 1024 * 1024 {
        return false;
      }
      selectedImage := Some(file.value.dataUrl);
      accepted := true;
    }
  }
}
