/** The simulated assistant (src/utils/simulateAI.ts).

    `simulateAIResponse` calls `onTypingStart` at once and schedules one
    timer; when it fires, `onTypingEnd` runs and then `onResponse` with a
    canned reply. The model describes the calls as a trace of `Callback`
    events split into the part that runs now and the part the timer runs.
    `Math.random()` becomes the caller-supplied `index`. */
module SimulateAI {
  import opened Types

  const AI_RESPONSES: seq<string> := [
    "That's an interesting question! Let me think about that...",
    "I understand what you're asking. Here's what I think...",
    "Great point! Based on my understanding...",
    "Let me help you with that. From what I can see...",
    "That's a thoughtful query. In my analysis...",
    "I appreciate your question. Here's my perspective...",
    "Excellent question! Let me break this down...",
    "I see where you're coming from. To address that...",
    "That's worth exploring. Consider this...",
    "Interesting approach! Here's how I'd think about it..."
  ]

  /** The default of `throttleMs`. */
  const DEFAULT_THROTTLE_MS := 2000

  /** `generateAIResponse()` for the draw `Math.floor(Math.random() * 10) == index`. */
  function GenerateAIResponse(index: int): (r: string)
    requires 0 <= index < |AI_RESPONSES|
    ensures r in AI_RESPONSES
    ensures |r| > 0
  {
    AI_RESPONSES[index]
  }

  /** The ten canned responses, and none of them is empty. */
  lemma ResponsesNonEmpty()
    ensures |AI_RESPONSES| == 10
    ensures forall i | 0 <= i < |AI_RESPONSES| :: AI_RESPONSES[i] != ""
  {
  }

  /** A call of one of the three callbacks. */
  datatype Callback = TypingStart | TypingEnd | Response(message: string)

  /** What one call of `simulateAIResponse` does: the callbacks it runs
      synchronously, and the delay of the one timer it schedules. */
  datatype Schedule = Schedule(immediate: seq<Callback>, delayMs: int)

  /** `simulateAIResponse(…, throttleMs)`; `None` means the argument was left out. */
  function SimulateAIResponse(throttleMs: Option<int>): (r: Schedule)
    ensures r.immediate == [TypingStart]
    ensures r.delayMs == (if throttleMs.Some? then throttleMs.value else DEFAULT_THROTTLE_MS)
  {
    Schedule([TypingStart], match throttleMs case Some(ms) => ms case None => DEFAULT_THROTTLE_MS)
  }

  /** The callbacks the timer runs, for the draw `index`. */
  function Deferred(index: int): seq<Callback>
    requires 0 <= index < |AI_RESPONSES|
  {
    [TypingEnd, Response(GenerateAIResponse(index))]
  }

  /** The whole trace of one call: `onTypingStart` first and synchronously,
      then, in the deferred step, `onTypingEnd` followed by `onResponse`;
      each exactly once, and the response is a canned, non-empty one.
      There is no path that skips the response. */
  lemma OneCallTrace(throttleMs: Option<int>, index: int)
    requires 0 <= index < |AI_RESPONSES|
    ensures var t := SimulateAIResponse(throttleMs).immediate + Deferred(index);
      && |t| == 3
      && t[0] == TypingStart && t[1] == TypingEnd && t[2].Response?
      && t[2].message in AI_RESPONSES && t[2].message != ""
      && multiset(t)[TypingStart] == 1
      && multiset(t)[TypingEnd] == 1
      && (forall i | 0 <= i < |t| && t[i].Response? :: i == 2)
  {
    var m := GenerateAIResponse(index);
    assert SimulateAIResponse(throttleMs).immediate + Deferred(index) == [TypingStart, TypingEnd, Response(m)];
    assert multiset([TypingStart, TypingEnd, Response(m)])
      == multiset{TypingStart} + multiset{TypingEnd} + multiset{Response(m)};
  }
}
