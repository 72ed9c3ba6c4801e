# Gemini-style chat client: verified model of the client core

This Dafny project models the client-side logic of a chat application that
imitates the Gemini web client. It covers:

- **The chat slice of the Redux store.** It holds the room list, the
  active room id and a global "assistant is typing" flag. Seven reducers
  change it.
- **The history generator.** It fabricates a batch of alternating
  user/assistant messages for infinite scroll.
- **The thread view.** This covers the scroll-to-top pager, the send
  guard, the simulated reply and its routing, and the image size check.
- **The simulated assistant.** It runs the typing-start, typing-end and
  response callbacks around one timer.
- **The phone/OTP login form.** This covers its step machine, the two
  form schemas, the country list and the options built from it.
- **The dashboard sidebar.** It restores saved rooms, creates a room and
  then activates it, deletes rooms, searches titles and shortens long
  titles.

Each reducer is a pure function `ChatSlice.Reduce(state, action)`. The
store itself is the class `ChatSlice.ChatStore`, which has one method per
reducer. Each method is proved to leave exactly the state `Reduce` gives.

The React components become classes whose fields are the `useState`
variables their handlers read or change. These are
`ChatInterface.ThreadView`, `OtpLogin.LoginForm` and
`Dashboard.DashboardView`. Some state variables are not fields:

- the login form's `countries` is the result of `OtpLogin.LoadCountries`;
- the dashboard's `searchQuery` reaches `Dashboard.FilteredChatrooms` as
  its (debounced) `query` parameter;
- the login form's `phoneNumber` and `loadingCountries` and the thread
  view's `initialLoad` only affect what is drawn.

The methods are the event handlers, and each handler is proved against
pure functions of the old state:

- what it dispatches, as `ChatSlice.ReduceAll` over a list of actions;
- what it sets.

Every `setTimeout` is split in two. One method schedules the timer. A
separate method runs when the timer fires, and it receives the values
the timer's closure captured.

Inputs from outside the program become parameters:

- clock readings (`Date.now()`, `new Date()`) become `now` and `idTime`;
- random draws become `picks` and `index`;
- the result of the country fetch becomes an `Option`;
- `localeCompare` and `toLowerCase` become a comparator and a map.

Modules follow the source files:

- `types.dfy`: `src/types/index.ts`
- `strings.dfy`: the JavaScript string operations used
- `seqs.dfy`: `Array.prototype.filter`
- `chat_slice.dfy`: `src/store/chatSlice.ts`
- `dummy_messages.dfy`: `src/utils/generateDummyMessages.ts`
- `simulate_ai.dfy`: `src/utils/simulateAI.ts`
- `country_list.dfy`: `src/data/countryList.ts`
- `otp_login.dfy`: `src/components/auth/OTPLogin.tsx` and `src/schemas/*`
- `chat_interface.dfy`: `src/components/chat/ChatInterface.tsx`
- `dashboard.dfy`: `src/components/dashboard/Dashboard.tsx`

### Notes on behaviour the proofs make explicit

- **The OTP check accepts any six characters.** `onOTPSubmit` accepts
  `otp === "123456" || otp.length === 6`. The schema already requires
  exactly six characters. So every submitted code is accepted, and the
  "Invalid OTP" branch cannot be reached
  (`OtpLogin.OtpAcceptedIffSixChars`, `OtpLogin.VerifyOtp`).
- **Enter ignores the typing flag.** The Send button is disabled while
  the assistant is typing. The Enter key calls `handleSendMessage`
  directly, and that guard does not look at `isTyping`
  (`ChatInterface.EnterBypassesTypingGuard`). Two sends in a row
  therefore schedule two replies. Each reply goes to the room captured
  when its send happened (`ChatInterface.ReplyGoesToCapturedRoom`).
- **One pager for every room.** The pager lives in the thread view, not
  per room. History pages loaded after switching rooms continue the same
  page counter. At most five loads ever complete per view
  (`ChatInterface.AtMostFiveLoads`).
- **Ids can collide.** Ids built from `Date.now()` collide for two rooms,
  or two user messages, created within the same millisecond
  (`Dashboard.NewChatroomIdsDiffer`). `addChatroom` does not check
  uniqueness (`ChatSlice.AddChatroomKeepsUniqueIds`).

## Model

| member | source | states |
|---|---|---|
| ChatSlice.InitialState | src/store/chatSlice.ts:4-8 | the initial state has no rooms, no active room and no reply being typed, so the unique-id and active-room invariants hold from the start |
| ChatSlice.Reduce | src/store/chatSlice.ts:14-56 | the reducer, one case per action; what each case does is stated by the lemmas in the rows below and by `ReduceFrame` |
| ChatSlice.ReduceFrame | src/store/chatSlice.ts:14-56 | only `setIsTyping` changes the typing flag; only `setActiveChatroom` and `deleteChatroom` change the active id; `setActiveChatroom` and `setIsTyping` leave the room list alone; the two message actions keep the list's length and every room's id in place |
| ChatSlice.WithoutRoom | src/store/chatSlice.ts:21-23 | the filtered list is an order-preserving subsequence holding no room with the id; a list without such a room is returned whole |
| ChatSlice.AppendMessage | src/store/chatSlice.ts:35-41 | the room list keeps its length and every room's id and title; rooms with other ids are untouched |
| ChatSlice.PrependMessages | src/store/chatSlice.ts:50-55 | the room list keeps its length and every room's id, title and `updatedAt`; rooms with other ids are untouched |
| ChatSlice.ChatStore.constructor | src/store/chatSlice.ts:4-8 | the store starts with no rooms, no active room and `isTyping` false |
| ChatSlice.FindRoom | src/store/chatSlice.ts:35-37 | the index found holds the first room with the id; there is none exactly when no room has the id |
| ChatSlice.AddChatroomAtFront | src/store/chatSlice.ts:17-19 | `addChatroom` puts the room at index 0, shifts every old room right by one, and keeps the active id and typing flag |
| ChatSlice.AddChatroomKeepsUniqueIds | src/store/chatSlice.ts:17-19 | starting from unique ids, the ids stay unique exactly when the new room's id is fresh (no check is made) |
| ChatSlice.DeleteChatroomRemovesExactly | src/store/chatSlice.ts:20-27 | the result is an order-preserving subsequence without the id; every room with another id stays, as many times as it was there (as a multiset); the active id becomes null exactly when it was that id; an absent id changes nothing |
| ChatSlice.DeleteChatroomKeepsInvariants | src/store/chatSlice.ts:20-27 | delete keeps ids unique and keeps the active id pointing at an existing room |
| ChatSlice.SubsequenceKeepsUniqueIds | src/store/chatSlice.ts:21-23 | a filtered room list of a list with unique ids has unique ids, all taken from the original |
| ChatSlice.SetActiveChatroomUnchecked | src/store/chatSlice.ts:28-30 | `setActiveChatroom` sets the id with no existence check and changes nothing else; the id refers to a room exactly when one has it |
| ChatSlice.AddMessageAppends | src/store/chatSlice.ts:31-42 | on an existing room, the first room with the id gets `old ++ [m]` and `updatedAt = now`; its id, title and createdAt, the other rooms, the active id and the typing flag are unchanged |
| ChatSlice.AbsentRoomIsNoOp | src/store/chatSlice.ts:35-55 | `addMessage` and `loadMoreMessages` for an id no room has leave the whole state unchanged |
| ChatSlice.LoadMoreMessagesPrepends | src/store/chatSlice.ts:46-56 | on an existing room, messages become `batch ++ old`: the length grows by the batch length, the batch comes first in order, `updatedAt` and everything else are untouched |
| ChatSlice.AppendActionsReduce | src/store/chatSlice.ts:31-42 | dispatching one `addMessage` per message, each with its own clock reading, changes only the room list |
| ChatSlice.AppendAllExtends | src/store/chatSlice.ts:35-41 | successive appends to one room extend that room's messages by the whole list; its `updatedAt` is the last call's clock reading |
| ChatSlice.AppendsKeepCallOrder | src/store/chatSlice.ts:35-41 | successive `addMessage` calls on an existing room append the messages in call order, and `updatedAt` ends as the last call's clock reading (unchanged for no call); the room stays findable at the same index; other rooms, the active id and the typing flag are unchanged |
| ChatSlice.ReduceKeepsUniqueIds | src/store/chatSlice.ts:14-56 | every reducer keeps room ids unique, given a list with unique ids for `setChatrooms` and a fresh id for `addChatroom` |
| ChatSlice.ChatStore.SetChatrooms | src/store/chatSlice.ts:14-16 | the room list is replaced; the active id and typing flag are kept |
| ChatSlice.ChatStore.AddChatroom | src/store/chatSlice.ts:17-19 | the room is put in front of the list (`unshift`) |
| ChatSlice.ChatStore.DeleteChatroom | src/store/chatSlice.ts:20-27 | no room with the id remains, the rest keep their order, and the active id is cleared exactly when it was that id |
| ChatSlice.ChatStore.SetActiveChatroom | src/store/chatSlice.ts:28-30 | the active id is set; the rooms and typing flag are kept |
| ChatSlice.ChatStore.AddMessage | src/store/chatSlice.ts:31-42 | the new state is the reducer's; an absent room leaves the list unchanged |
| ChatSlice.ChatStore.SetIsTyping | src/store/chatSlice.ts:43-45 | the typing flag is set; nothing else changes |
| ChatSlice.ChatStore.LoadMoreMessages | src/store/chatSlice.ts:46-56 | the new state is the reducer's; an absent room leaves the list unchanged |
| Seqs.Filter | src/store/chatSlice.ts:21-23 | the kept elements satisfy the predicate; every element that satisfies it is kept; the result is an order-preserving subsequence; when all satisfy it the list is returned whole |
| Seqs.FilterCounts | src/store/chatSlice.ts:21-23 | every value that satisfies the predicate is kept as many times as it occurs, and every other value occurs zero times |
| Strings.Trim | src/components/chat/ChatInterface.tsx:108 | `trim()`: leading whitespace removed, then trailing; what it means is stated by `TrimStart`, `TrimEnd` and `TrimEmptyIffBlank` |
| Strings.Contains | src/components/dashboard/Dashboard.tsx:119 | `includes`: the pattern occurs at some position of the string |
| Strings.TrimStart | src/components/chat/ChatInterface.tsx:108 | removes exactly the leading whitespace: the result is a suffix, what was dropped is blank, and the result does not start with whitespace |
| Strings.TrimEnd | src/components/chat/ChatInterface.tsx:108 | removes exactly the trailing whitespace: the result is a prefix, what was dropped is blank, and the result does not end with whitespace |
| Strings.TrimEmptyIffBlank | src/components/dashboard/Dashboard.tsx:68 | `trim()` gives the empty string exactly for strings made only of whitespace |
| Strings.NatToString | src/utils/generateDummyMessages.ts:38 | the rendering of a number is non-empty and begins and ends with a digit; numbers from 10 up have at least two digits |
| Strings.IntToString | src/utils/generateDummyMessages.ts:38 | the rendering is non-empty, starts with `-` exactly for negative numbers, and ends with a digit |
| Strings.NatToStringInjective | src/utils/generateDummyMessages.ts:38 | different natural numbers render differently |
| Strings.IntToStringInjective | src/utils/generateDummyMessages.ts:38 | different integers render differently |
| Strings.ContainsEmpty | src/components/dashboard/Dashboard.tsx:119 | every string `includes` the empty string |
| DummyMessages.MessageList | src/utils/generateDummyMessages.ts:34 | both content lists have eight entries |
| DummyMessages.MessageIdInjective | src/utils/generateDummyMessages.ts:38 | `msg-${n}` ids of different numbers differ |
| DummyMessages.MessageId | src/utils/generateDummyMessages.ts:38 | the id `msg-${n}`; `MessageIdInjective` states that it tells numbers apart |
| DummyMessages.DummyMessage | src/utils/generateDummyMessages.ts:37-42 | message `i` of a batch; its fields are stated by `BatchShape`, `BatchContents` and `BatchTimestamps` |
| DummyMessages.StartOf | src/utils/generateDummyMessages.ts:27 | the number of the first message: the given `startId`, or 0 when it is omitted |
| DummyMessages.GenerateDummyMessages | src/utils/generateDummyMessages.ts:25-46 | the loop returns exactly the batch: `max(count, 0)` messages numbered from `startId` (0 when omitted), message `i` being `DummyMessage(i, …)` with the content drawn from the list for its parity |
| DummyMessages.NextMessage | src/utils/generateDummyMessages.ts:33-42 | one loop iteration builds message `i` with id `msg-(startId+i)`, sender by parity, timestamp `now - (count-i)*60000`, and no image |
| DummyMessages.BatchShape | src/utils/generateDummyMessages.ts:33-42 | message `i` has id `msg-(startId+i)`, is the user's at even and the assistant's at odd positions, and has no image |
| DummyMessages.BatchContents | src/utils/generateDummyMessages.ts:33-35 | user messages take their content from the user list and assistant messages from the assistant list |
| DummyMessages.BatchTimestamps | src/utils/generateDummyMessages.ts:41 | timestamps rise by exactly 60000 ms per message and strictly increase; all are before `now`; the last is `now - 60000` |
| DummyMessages.BatchIdsDistinct | src/utils/generateDummyMessages.ts:38 | ids within a batch are pairwise distinct |
| DummyMessages.BatchesDisjoint | src/utils/generateDummyMessages.ts:38 | two batches whose number ranges do not overlap share no id |
| SimulateAI.GenerateAIResponse | src/utils/simulateAI.ts:14-17 | the response is one of the canned ones and is not empty |
| SimulateAI.ResponsesNonEmpty | src/utils/simulateAI.ts:1-12 | there are ten canned responses, none empty |
| SimulateAI.SimulateAIResponse | src/utils/simulateAI.ts:19-26 | `onTypingStart` is the only callback run synchronously; the timer delay is `throttleMs`, 2000 when it is left out |
| SimulateAI.Deferred | src/utils/simulateAI.ts:27-31 | the timer's callbacks: typing-end, then the response drawn at the given index |
| SimulateAI.OneCallTrace | src/utils/simulateAI.ts:19-32 | the callbacks run typing-start, typing-end, response, each exactly once; the response is last, canned and non-empty |
| OtpLogin.PhoneValid | src/schemas/phoneSchema.ts:3-9 | `phoneSchema`: a non-empty country code and a phone number of 6 to 15 characters |
| OtpLogin.OtpValid | src/schemas/otpSchema.ts:3-5 | `otpSchema`: exactly six characters |
| OtpLogin.OtpAccepted | src/components/auth/OTPLogin.tsx:85 | the handler's test: the demo code or any six characters |
| OtpLogin.OtpAcceptedIffSixChars | src/components/auth/OTPLogin.tsx:85 | the check accepts exactly the six-character codes, so every code the schema lets through passes |
| OtpLogin.VerifyOtp | src/components/auth/OTPLogin.tsx:83-102 | a code the schema rejects stops the submit; "Invalid OTP" never results; `onSuccess` is called exactly when the code passes the schema and phone data is stored, and with that data |
| OtpLogin.LoginForm.constructor | src/components/auth/OTPLogin.tsx:30-35 | the form starts on the phone step with no phone data and an empty code |
| OtpLogin.LoginForm.SubmitPhone | src/components/auth/OTPLogin.tsx:71-81 | a submit is accepted exactly when the phone schema holds; an accepted one stores the data and schedules the switch to the OTP step |
| OtpLogin.LoginForm.OtpSentTimerFires | src/components/auth/OTPLogin.tsx:73-80 | the scheduled switch moves the form to the OTP step |
| OtpLogin.LoginForm.EnterOtp | src/components/auth/OTPLogin.tsx:194 | typing sets the code and nothing else |
| OtpLogin.LoginForm.Back | src/components/auth/OTPLogin.tsx:200-204 | "Back" returns to the phone step with an empty code and keeps the stored phone data |
| OtpLogin.LoginForm.SubmitOtp | src/components/auth/OTPLogin.tsx:83-102 | on the OTP step, for the code the form hands to `onOTPSubmit`, every six-character code logs in with the stored number and country code; any other code is stopped by the schema |
| OtpLogin.HasDialRoot | src/components/auth/OTPLogin.tsx:57 | `country.idd?.root` is truthy: present and non-empty |
| OtpLogin.KeepWithDialRoot | src/components/auth/OTPLogin.tsx:57 | the filter on a truthy dial root; its meaning is stated by `KeepWithDialRootSelects` |
| OtpLogin.CountrySource | src/components/auth/OTPLogin.tsx:53-67 | the fetched list when the fetch succeeds, the bundled list when it fails |
| OtpLogin.DialCode | src/components/auth/OTPLogin.tsx:105 | the dial code is non-empty and starts with the dial root |
| OtpLogin.DialCodeCases | src/components/auth/OTPLogin.tsx:105 | the dial code is the root followed by the first suffix, or the root alone when there is no suffix |
| OtpLogin.CountryOptions | src/components/auth/OTPLogin.tsx:104-111 | one option per country, in order; value the dial code, label `name (dialCode)`, flag the country's |
| OtpLogin.InsertByName | src/components/auth/OTPLogin.tsx:58 | inserting adds exactly one entry (as a multiset) at the front or after the old head |
| OtpLogin.SortByName | src/components/auth/OTPLogin.tsx:56-58 | the sort is a permutation of its input |
| OtpLogin.InsertKeepsSorted | src/components/auth/OTPLogin.tsx:58 | with a consistent comparator, inserting into a sorted list keeps it sorted |
| OtpLogin.SortByNameSorted | src/components/auth/OTPLogin.tsx:56-58 | with a consistent comparator, the sorted list is in order of name |
| OtpLogin.SortKeepsRoots | src/components/auth/OTPLogin.tsx:56-58 | sorting countries that all have a dial root gives countries that all have one, in order of name |
| OtpLogin.LoadCountries | src/components/auth/OTPLogin.tsx:52-68 | the offered list holds exactly the source's entries with a dial root (as a multiset), sorted by name, from the fetched list or from the bundled one when the fetch fails |
| OtpLogin.KeepWithDialRootSelects | src/components/auth/OTPLogin.tsx:57 | the filter keeps, in order, exactly the countries with a truthy dial root, each as many times as it occurs in the input (as a multiset) |
| OtpLogin.FallbackHasRoots | src/data/countryList.ts:3-66 | every bundled entry has a dial root, so the filter keeps the bundled list whole |
| OtpLogin.EntryHasRoot | src/data/countryList.ts:3-66 | each bundled entry has a non-empty dial root |
| OtpLogin.FallbackKeepsAllTen | src/components/auth/OTPLogin.tsx:62-67 | when the fetch fails the form offers all ten bundled countries |
| ChatInterface.OnScroll | src/components/chat/ChatInterface.tsx:60-66 | a scroll changes the pager exactly when the guard holds, and then only starts a load of the current page for the active room; page and `hasMore` never change |
| ChatInterface.OnLoadComplete | src/components/chat/ChatInterface.tsx:67-80 | the timer ends the load, sets the page to the captured page plus one, and keeps more history exactly when there was more and the captured page is below 4 |
| ChatInterface.ScrollGate | src/components/chat/ChatInterface.tsx:60-66 | a scroll changes nothing unless there is a container, a truthy active id, no load in flight, more history and `scrollTop` 0; when all hold, the load starts and captures the room and page |
| ChatInterface.SecondTriggerBlocked | src/components/chat/ChatInterface.tsx:62-65 | once a load has started, every further scroll is ignored until its timer fires |
| ChatInterface.LoadCompleteAdvances | src/components/chat/ChatInterface.tsx:67-80 | a completed load advances the page by one and ends the load; more history remains exactly while fewer than five pages have completed |
| ChatInterface.StepKeepsInv | src/components/chat/ChatInterface.tsx:60-86 | any scroll or timer event keeps the pager invariant; only a completed load advances the page |
| ChatInterface.LoadsFollowPages | src/components/chat/ChatInterface.tsx:60-86 | along any event sequence the invariant holds, and the completed loads are for consecutive pages, one per page advanced |
| ChatInterface.AtMostFiveLoads | src/components/chat/ChatInterface.tsx:68-80 | from a fresh view at most five loads complete; the `i`-th batch starts at number `20(i+1)`, so batch ranges never overlap |
| ChatInterface.PageBatchesDisjoint | src/components/chat/ChatInterface.tsx:68 | batches loaded for different pages share no message id |
| ChatInterface.SendAccepted | src/components/chat/ChatInterface.tsx:108 | the guard of `handleSendMessage`: a truthy active id and a non-blank input or a selected image |
| ChatInterface.SendButtonEnabled | src/components/chat/ChatInterface.tsx:332 | the Send button's `disabled` test, negated: it does look at `isTyping` |
| ChatInterface.EnterBypassesTypingGuard | src/components/chat/ChatInterface.tsx:321-332 | whenever the Send button is enabled the guard accepts; the two agree when no reply is being typed; while one is, the button is disabled though Enter still sends |
| ChatInterface.UserMessage | src/components/chat/ChatInterface.tsx:110-116 | the user message carries the untrimmed input, sender "user", time `now`, and the image exactly when one is selected |
| ChatInterface.AiMessage | src/components/chat/ChatInterface.tsx:134-139 | the reply has sender "ai", the response text, time `now` and no image |
| ChatInterface.UserAndAiIdsDiffer | src/components/chat/ChatInterface.tsx:111-135 | a user message id and a reply id never coincide |
| ChatInterface.CallbackAction | src/components/chat/ChatInterface.tsx:130-143 | the dispatch of one callback: typing true, typing false, or the reply appended to the captured room |
| ChatInterface.SendActions | src/components/chat/ChatInterface.tsx:118-131 | the dispatches of an accepted send: stated by `SendActionsUnfold` |
| ChatInterface.ReplyActions | src/components/chat/ChatInterface.tsx:132-143 | the dispatches of the reply timer: stated by `ReplyActionsUnfold` |
| ChatInterface.CallbackActions | src/components/chat/ChatInterface.tsx:130-145 | each callback maps, in order, to its dispatch: typing true, typing false, or the reply appended to the captured room |
| ChatInterface.SendActionsUnfold | src/components/chat/ChatInterface.tsx:118-131 | an accepted send dispatches the user message and then `setIsTyping(true)` |
| ChatInterface.ReplyActionsUnfold | src/components/chat/ChatInterface.tsx:132-143 | the reply timer dispatches `setIsTyping(false)` and then the reply |
| ChatInterface.SendShowsTyping | src/components/chat/ChatInterface.tsx:107-131 | after a send into an existing room the typing flag is set, the room's history ends with the user message and its `updatedAt` is the send time; its id, title and `createdAt`, every other room and the active id are kept |
| ChatInterface.ReplyGoesToCapturedRoom | src/components/chat/ChatInterface.tsx:130-145 | the reply is appended to the room captured at send time even if another room became active; it is a canned, non-empty "ai" message; typing is cleared; the other rooms and the new active id are kept |
| ChatInterface.ThreadView.constructor | src/components/chat/ChatInterface.tsx:28-32 | the view starts with empty input, no image, no load in flight, more history and page 0 |
| ChatInterface.ThreadView.SetInput | src/components/chat/ChatInterface.tsx:320 | typing sets the input and nothing else |
| ChatInterface.ThreadView.RemoveImage | src/components/chat/ChatInterface.tsx:299 | "Remove" clears the selected image and nothing else |
| ChatInterface.ThreadView.HandleScroll | src/components/chat/ChatInterface.tsx:60-66 | the pager becomes `OnScroll` of the old one, and the invariant is kept |
| ChatInterface.ThreadView.CompleteLoad | src/components/chat/ChatInterface.tsx:67-80 | the timer generates the 20-message batch numbered from `(page+1)*20` for the captured page, prepends it to the captured room, and advances the pager |
| ChatInterface.ThreadView.HandleSendMessage | src/components/chat/ChatInterface.tsx:107-131 | it sends exactly when the guard holds; a send dispatches the user message and `setIsTyping(true)`, clears input and image, and queues a reply for the current room; otherwise nothing changes |
| ChatInterface.ThreadView.CompleteReply | src/components/chat/ChatInterface.tsx:132-143 | the oldest reply timer dispatches typing false and the reply to its captured room |
| ChatInterface.ThreadView.HandleImageSelect | src/components/chat/ChatInterface.tsx:88-105 | a file is accepted exactly when present and at most 5 MiB; an accepted file's data URL becomes the selected image; otherwise the image is unchanged |
| Dashboard.DisplayTitle | src/components/dashboard/Dashboard.tsx:217-218 | a title of at most 25 characters is shown whole followed by a space; a longer one as its first 25 characters followed by `....` |
| Dashboard.ShortTitlesDistinguishable | src/components/dashboard/Dashboard.tsx:217-218 | two titles of at most 25 characters that display alike are equal |
| Dashboard.LongTitlesShareDisplay | src/components/dashboard/Dashboard.tsx:217-218 | longer titles agreeing on their first 25 characters display alike |
| Dashboard.MatchesQuery | src/components/dashboard/Dashboard.tsx:119 | the lowered title includes the lowered query |
| Dashboard.FilteredChatrooms | src/components/dashboard/Dashboard.tsx:118-120 | the shown rooms are an order-preserving subsequence of the store's list: exactly the rooms whose lowered title includes the lowered query |
| Dashboard.FilteredChatroomsCounts | src/components/dashboard/Dashboard.tsx:118-120 | a matching room is shown as many times as it is in the store, any other not at all |
| Dashboard.EmptyQueryKeepsAll | src/components/dashboard/Dashboard.tsx:118-120 | an empty query shows every room in store order |
| Dashboard.FilteredKeepsUniqueIds | src/components/dashboard/Dashboard.tsx:118-120 | with unique ids in the store, the shown rooms have unique ids, all rooms of the store |
| Dashboard.NewChatroom | src/components/dashboard/Dashboard.tsx:77-83 | the new room has the untrimmed title, no messages, and both dates at `now` |
| Dashboard.NewChatroomIdsDiffer | src/components/dashboard/Dashboard.tsx:78 | two new rooms get the same id exactly when they are created in the same millisecond |
| Dashboard.CreateActions | src/components/dashboard/Dashboard.tsx:85-86 | the two dispatches of a create, `addChatroom` then `setActiveChatroom` with the new id |
| Dashboard.CreateThenActivate | src/components/dashboard/Dashboard.tsx:85-86 | after the two dispatches the new room heads the list and is active, the rest is kept, and ids stay unique when the new id is fresh |
| Dashboard.DashboardView.constructor | src/components/dashboard/Dashboard.tsx:45-48 | the dialog starts closed with an empty title, while the saved rooms load |
| Dashboard.DashboardView.LoadSavedChatrooms | src/components/dashboard/Dashboard.tsx:55-61 | saved rooms replace the store's list exactly when there is at least one; loading ends either way |
| Dashboard.DashboardView.SetNewChatroomTitle | src/components/dashboard/Dashboard.tsx:266 | typing sets the title and nothing else |
| Dashboard.DashboardView.OpenCreateModal | src/components/dashboard/Dashboard.tsx:182 | the button opens the dialog |
| Dashboard.DashboardView.CloseCreateModal | src/components/dashboard/Dashboard.tsx:258 | closing the dialog keeps the typed title |
| Dashboard.DashboardView.HandleCreateChatroom | src/components/dashboard/Dashboard.tsx:67-97 | a whitespace-only title is refused and nothing changes; otherwise the new room is added and activated, the title cleared and the dialog closed |
| Dashboard.DashboardView.HandleDeleteChatroom | src/components/dashboard/Dashboard.tsx:99-106 | exactly one `deleteChatroom` for the clicked id |
| Dashboard.DashboardView.SelectChatroom | src/components/dashboard/Dashboard.tsx:212 | clicking a room makes it active |

## Left out

- **Persistence through `localStorage`** (`src/utils/localStorage.ts`). It
  relies on `JSON` and `Date` revival. The saved list reaches
  `LoadSavedChatrooms` as a parameter. Writing the list back on every
  change is not modelled.
- **Rendering and visible side effects.** This covers JSX, Mantine,
  notifications, scrolling the container and the clipboard. Setting
  `scrollTop` after a load and scrolling to the bottom are part of this.
  `handleCopyMessage` and `formatTimestamp` are left out too.
- **Timers.** Each timer is a separate "fires" step, with no wall-clock
  time, so the history timer's 1000 ms delay does not appear. Reply
  timers fire in the order they were scheduled, since they all have the
  same delay.
- **Randomness and the network.** `Math.random()` draws are parameters
  (`picks`, `index`). The restcountries fetch becomes an `Option`: a
  failure is `None`, and the JSON decoding is not modelled.
- **Locale-dependent string operations.** `localeCompare` is a
  comparator parameter, and sortedness is proved for comparators where
  `cmp(a,b) > 0` implies `cmp(b,a) < 0`. `toLowerCase` is a map
  parameter. `EmptyQueryKeepsAll` requires that this map sends `""` to
  `""`.
- OtpLogin.SortByName: a stable insertion sort, as `Array.prototype.sort`
  has been required to be since ECMAScript 2019. Stability itself
  (countries whose names compare equal keep their input order) is not
  proved; the model proves a permutation ordered by name.
- **UTF-16 code units.** Lengths and `slice` count code units, while the
  model counts `char`s. These differ for characters outside the Basic
  Multilingual Plane.
- **Clock readings.** The several readings taken in one handler are one
  `now`. This covers `Date.now()` and `new Date()` in
  `handleSendMessage`, in the reply and in a new room's two dates. On a
  new room the id's reading `idTime` is kept apart.
- OtpLogin.LoginForm.SubmitOtp: the code checked is a parameter, the
  value the form library passes to `onOTPSubmit`. How that value relates
  to the visible `otp` field is not modelled: the field's own `onChange`
  replaces the one `register` installs. `SubmitPhone` takes its data the
  same way.
- **Asynchronous steps collapsed.** The OTP verdict's 500 ms delay is run
  at the submit, with the code and phone data current at that moment.
  The `FileReader` load is taken as immediate.
- **Component lifecycle.** Mounting and unmounting components, the
  `initialLoad` flag and the 300 ms search debounce are left out. The
  filter takes the debounced query as it stands. A remount of the thread
  view resets the pager, which is not modelled.
- **Other code.** Logout and the auth slice (`authSlice` is not part of
  this model) are left out, as are theme toggling, the navbar burger and
  the store wiring.
- **The success notice after a create.** The text of the notice shown
  after a create (`Dashboard.tsx:90-96`) is rendering and is left out.
