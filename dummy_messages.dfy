/** The history batch generator (src/utils/generateDummyMessages.ts).

    `Math.random()` is replaced by `picks`: the caller supplies, for each
    message, the index into the content list that the random draw would
    have produced (`Math.floor(Math.random() * 8)` lies in [0, 8)). */
module DummyMessages {
  import opened Types
  import opened Strings

  const DUMMY_USER_MESSAGES: seq<string> := [
    "Hello, how are you?",
    "Can you help me with this?",
    "What do you think about that?",
    "Tell me more about this topic",
    "That's interesting!",
    "I have a question",
    "Could you explain that better?",
    "Thanks for your help"
  ]

  const DUMMY_AI_MESSAGES: seq<string> := [
    "Hello! I'm doing well, thank you for asking. How can I assist you today?",
    "Of course! I'd be happy to help. What specifically would you like to know?",
    "That's an excellent question. Let me share my thoughts on this...",
    "I'd be glad to elaborate. Here's what you should know...",
    "I'm pleased you find this engaging! Let's explore it further.",
    "Feel free to ask anything. I'm here to help you.",
    "Let me break that down for you in simpler terms...",
    "You're welcome! Is there anything else you'd like to know?"
  ]

  /** Both content lists have eight entries. */
  const LIST_SIZE := 8

  /** The default of the `startId` parameter. */
  const DEFAULT_START_ID := 0

  /** Milliseconds between two consecutive generated messages. */
  const SPACING_MS := 60000

  /** The list a message's content is drawn from. */
  function MessageList(isUser: bool): (list: seq<string>)
    ensures |list| == LIST_SIZE
  {
    if isUser then DUMMY_USER_MESSAGES else DUMMY_AI_MESSAGES
  }

  /** The id of the message numbered `n`: `msg-${n}`. */
  function MessageId(n: int): string {
    "msg-" + IntToString(n)
  }

  /** Different numbers give different ids. */
  lemma MessageIdInjective(a: int, b: int)
    requires MessageId(a) == MessageId(b)
    ensures a == b
  {
    PrefixCancel("msg-", IntToString(a), IntToString(b));
    IntToStringInjective(a, b);
  }

  /** The content drawn for message `i`: from the user list at even
      positions, from the assistant list at odd ones. */
  function DummyContent(i: int, pick: nat): string
    requires pick < LIST_SIZE
  {
    MessageList(i % 2 == 0)[pick]
  }

  /** The `i`-th message of a batch of `count` generated at `now`, carrying
      `content`. */
  function DummyMessage(i: int, count: int, startId: int, now: int, content: string): Message {
    Message(
      MessageId(startId + i),
      content,
      if i % 2 == 0 then User else Ai,
      now - (count - i) * 60000,
      None)
  }

  predicate ValidPicks(picks: seq<nat>) {
    forall i | 0 <= i < |picks| :: picks[i] < LIST_SIZE
  }

  /** `ms` is shaped like the batch `generateDummyMessages(count, startId)`
      returns at time `now`, whatever the contents drawn. */
  predicate IsBatchShape(ms: seq<Message>, count: int, startId: int, now: int) {
    && |ms| == (if count < 0 then 0 else count)
    && forall i | 0 <= i < |ms| :: ms[i] == DummyMessage(i, count, startId, now, ms[i].content)
  }

  /** `ms` is that batch for these draws. */
  predicate IsBatch(ms: seq<Message>, count: int, startId: int, now: int, picks: seq<nat>)
    requires ValidPicks(picks) && count <= |picks|
  {
    && IsBatchShape(ms, count, startId, now)
    && forall i | 0 <= i < |ms| :: ms[i].content == DummyContent(i, picks[i])
  }

  /** The messages of a batch of `count` carrying `contents`, in order,
      built back to front as the loop pushes them. */
  function BatchOf(count: int, startId: int, now: int, contents: seq<string>): (ms: seq<Message>)
    ensures |ms| == |contents|
  {
    if contents == [] then []
    else BatchOf(count, startId, now, contents[..|contents| - 1])
         + [DummyMessage(|contents| - 1, count, startId, now, contents[|contents| - 1])]
  }

  lemma {:induction false} BatchOfPointwise(count: int, startId: int, now: int, contents: seq<string>)
    ensures forall i | 0 <= i < |contents| ::
      BatchOf(count, startId, now, contents)[i] == DummyMessage(i, count, startId, now, contents[i])
  {
    if contents != [] {
      var init := contents[..|contents| - 1];
      BatchOfPointwise(count, startId, now, init);
      var prev := BatchOf(count, startId, now, init);
      var ms := BatchOf(count, startId, now, contents);
      forall i | 0 <= i < |contents| ensures ms[i] == DummyMessage(i, count, startId, now, contents[i]) {
        if i < |contents| - 1 {
          assert ms[i] == prev[i];
          assert init[i] == contents[i];
        }
      }
    }
  }

  /** The contents drawn for the first `n` messages. */
  function DrawnContents(n: nat, picks: seq<nat>): (cs: seq<string>)
    requires ValidPicks(picks) && n <= |picks|
    ensures |cs| == n
  {
    if n == 0 then [] else DrawnContents(n - 1, picks) + [DummyContent(n - 1, picks[n - 1])]
  }

  lemma {:induction false} DrawnContentsPointwise(n: nat, picks: seq<nat>)
    requires ValidPicks(picks) && n <= |picks|
    ensures forall i | 0 <= i < n :: DrawnContents(n, picks)[i] == DummyContent(i, picks[i])
  {
    if n > 0 {
      DrawnContentsPointwise(n - 1, picks);
      var prev := DrawnContents(n - 1, picks);
      var cs := DrawnContents(n, picks);
      forall i | 0 <= i < n ensures cs[i] == DummyContent(i, picks[i]) {
        if i < n - 1 {
          assert cs[i] == prev[i];
        }
      }
    }
  }

  /** The number of the first message: `startId`, or its default. */
  function StartOf(startId: Option<int>): int {
    if startId.Some? then startId.value else DEFAULT_START_ID
  }

  /** `generateDummyMessages(count, startId)` at time `now`; an omitted
      `startId` (`None`) numbers the batch from `DEFAULT_START_ID`. */
  method GenerateDummyMessages(count: int, startId: Option<int>, now: int, picks: seq<nat>)
    returns (messages: seq<Message>)
    requires ValidPicks(picks) && count <= |picks|
    ensures IsBatch(messages, count, StartOf(startId), now, picks)
  {
    var start := StartOf(startId);
    messages := [];
    var i := 0;
    while i < count
      invariant 0 <= i && (count >= 0 ==> i <= count) && (count < 0 ==> i == 0)
      invariant messages == BatchOf(count, start, now, DrawnContents(i, picks))
    {
      var m := NextMessage(i, count, start, now, picks[i]);
      assert DrawnContents(i + 1, picks)[..i] == DrawnContents(i, picks);
      messages := messages + [m];
      i := i + 1;
    }
    BatchOfPointwise(count, start, now, DrawnContents(i, picks));
    DrawnContentsPointwise(i, picks);
  }

  /** One pass of the loop body: the message pushed for index `i`. */
  method NextMessage(i: int, count: int, startId: int, now: int, pick: nat) returns (m: Message)
    requires pick < LIST_SIZE
    ensures m == DummyMessage(i, count, startId, now, DummyContent(i, pick))
  {
    var isUser := i % 2 == 0;
    var messageList := MessageList(isUser);
    var content := messageList[pick];
    m := Message(
    "msg-" + IntToString(startId + i),
      content,
      if isUser then User else Ai,
      now - (count - i) * 60000,
      None);
  }

  // ---------------------------------------------------------------------
  // Properties of a batch

  /** Message `i` is numbered `startId + i`, even positions are the user's
      and odd ones the assistant's, and no generated message carries an
      image. */
  lemma BatchShape(ms: seq<Message>, count: int, startId: int, now: int, i: int)
    requires IsBatchShape(ms, count, startId, now)
    requires 0 <= i < |ms|
    ensures ms[i].id == MessageId(startId + i)
    ensures ms[i].sender == (if i % 2 == 0 then User else Ai)
    ensures ms[i].image == None
  {
  }

  /** User messages take their content from the user list and assistant
      messages from the assistant list. */
  lemma BatchContents(ms: seq<Message>, count: int, startId: int, now: int, picks: seq<nat>, i: int)
    requires ValidPicks(picks) && count <= |picks| && IsBatch(ms, count, startId, now, picks)
    requires 0 <= i < |ms|
    ensures ms[i].sender == User ==> ms[i].content in DUMMY_USER_MESSAGES
    ensures ms[i].sender == Ai ==> ms[i].content in DUMMY_AI_MESSAGES
  {
  }

  /** Timestamps are `now - (count - i) * 60000`: they rise by exactly one
      minute from message to message, all lie before `now`, and the last is
      one minute before `now`. */
  lemma BatchTimestamps(ms: seq<Message>, count: int, startId: int, now: int)
    requires IsBatchShape(ms, count, startId, now)
    ensures forall i | 0 <= i < |ms| - 1 :: ms[i + 1].timestamp == ms[i].timestamp + SPACING_MS
    ensures forall i | 0 <= i < |ms| :: ms[i].timestamp < now
    ensures ms != [] ==> ms[|ms| - 1].timestamp == now - SPACING_MS
    ensures forall i, j | 0 <= i < j < |ms| :: ms[i].timestamp < ms[j].timestamp
  {
  }

  /** Ids within a batch are pairwise distinct. */
  lemma BatchIdsDistinct(ms: seq<Message>, count: int, startId: int, now: int)
    requires IsBatchShape(ms, count, startId, now)
    ensures forall i, j | 0 <= i < j < |ms| :: ms[i].id != ms[j].id
  {
    forall i, j | 0 <= i < j < |ms| ensures ms[i].id != ms[j].id {
      if ms[i].id == ms[j].id {
        BatchShape(ms, count, startId, now, i);
        BatchShape(ms, count, startId, now, j);
        MessageIdInjective(startId + i, startId + j);
      }
    }
  }

  /** Two batches whose number ranges [startId, startId + count) do not
      overlap share no id. */
  lemma BatchesDisjoint(
    a: seq<Message>, countA: int, startA: int, nowA: int,
    b: seq<Message>, countB: int, startB: int, nowB: int)
    requires IsBatchShape(a, countA, startA, nowA)
    requires IsBatchShape(b, countB, startB, nowB)
    requires startA + countA <= startB || startB + countB <= startA
    ensures forall i, j | 0 <= i < |a| && 0 <= j < |b| :: a[i].id != b[j].id
  {
    forall i, j | 0 <= i < |a| && 0 <= j < |b| ensures a[i].id != b[j].id {
      if a[i].id == b[j].id {
        BatchShape(a, countA, startA, nowA, i);
        BatchShape(b, countB, startB, nowB, j);
        MessageIdInjective(startA + i, startB + j);
      }
    }
  }
}
