# Campaign screen and image proxy: a Dafny model

This project models the parts of a voice-driven Dungeons & Dragons web app that have
behaviour worth stating. A player talks with an AI "Dungeon Master" and the screen keeps a
transcript of the utterances. Every 8 seconds it builds a text prompt from that transcript
and asks a server route for an illustration. The route forwards the prompt, with a fixed style
preamble, to an image vendor and returns one URL.

Modules:

- `Wrappers` (wrappers.dfy): the `Option` type, standing for JavaScript's `null`/`undefined`.
- `Transcript` (transcript.dfy): utterances, the speaker mapping, the recent-window filter,
  joining with single spaces, cutting to the trailing 500 characters, and `BuildPrompt`. It
  returns the prompt `generateImage` would send, or `None` when it skips.
- `ImageProxy` (image_proxy.dfy): the `POST` route as one function. It maps the parsed
  request body and the vendor's outcome to the vendor input it sent, if any, and the status
  and body it answers.
- `Scheduler` (scheduler.dfy): the component's state as a value, with one step function per
  event: message, connect, first timeout, interval tick, request completion, disconnect,
  session attached, end, unmount. It also defines traces of events and the timer invariant
  `Tidy`, with the lemmas that tie them together.
- `CampaignSession` (campaign.dfy): the class `Campaign`, with the component's state, refs
  and live timers as fields and one method per event. Each method's `ensures` equates the new
  `State()` with the matching `Scheduler` step applied to the old one.

Timers are modelled the way the runtime keeps them, because the refs alone do not say which
timers are still live:

- every `setTimeout`/`setInterval` yields a fresh handle;
- the runtime keeps the live ones;
- each ref keeps only the handle stored in it last;
- clearing a timer leaves its ref as it was.

A timer event names a handle and carries the time `now`. Firing a handle that is not live
changes nothing.

Points where the code behaves differently from what a reader might expect, as the model
states them:

- A timer firing sets `lastImageTime` whether or not it made a request
  (app/components/CampaignUI.tsx:104-105, 110-111). `Scheduler.FirstTimeoutFires` and
  `Scheduler.IntervalTick` state this.
- Under its comment "Stop image generation", `onDisconnect` clears only the interval
  (app/components/CampaignUI.tsx:145-148). A pending first timeout therefore still fires and
  arms an interval (`Scheduler.DisconnectKeepsFirstTimeout`).
- Disconnecting before the first image and then reconnecting leaves two one-shot timers live;
  the second overwrites the ref. When both fire, the first interval's handle is overwritten
  too, so `endConversation` cannot clear that interval. It keeps firing and sends a request
  whenever some message is less than 8 s old. That happens just after the end, and all
  through any later session, beside that session's own interval
  (`Scheduler.ReconnectLeaksInterval`).
- With at most one connect per quiet state the timers stay `Tidy`. Ending the conversation
  then silences every timer, provided the session closes normally (`Scheduler.NoRequestAfterEnd`).
- `endConversation` awaits the session close before clearing anything
  (app/components/CampaignUI.tsx:184). If that close rejects, the ref stays set and both
  timers stay live (`Scheduler.FailedCloseKeepsTimers`). The unmount cleanup does not await
  the close, so it always clears the two timers its refs hold; an interval leaked by an
  earlier reconnect survives the unmount as well.
- Utterance texts are not checked to be non-empty. A transcript holding only an empty
  utterance sends the prompt "". The route answers 400 and the image stays
  (`Scheduler.EmptyUtteranceRefused`).

## Model

| member | source | states |
|---|---|---|
| Transcript.SpeakerOf | app/components/CampaignUI.tsx:158-161 | the speaker is the Dungeon Master exactly when the source is "ai", otherwise the team |
| Transcript.Texts | app/components/CampaignUI.tsx:59-62 | the texts of the messages, one per message, in order |
| Transcript.Join | app/components/CampaignUI.tsx:59-62 | no texts join to the empty string and a single text joins to itself |
| Transcript.JoinEnds | app/components/CampaignUI.tsx:59-62 | the joined text starts with the first text and ends with the last, the latest utterance |
| Transcript.Selected | app/components/CampaignUI.tsx:51-63 | without recentOnly every message; with it only messages newer than now - 8000, never more than the transcript |
| Transcript.Recent | app/components/CampaignUI.tsx:53-55 | every selected message is newer than the cutoff, no more messages than the input, and the selection is empty exactly when no message is newer than the cutoff |
| Transcript.RecentIsOrderedSelection | app/components/CampaignUI.tsx:53-54 | the recent selection is exactly the messages newer than the cutoff, taken at increasing positions, so in their original order |
| Transcript.RecentIsSuffix | app/components/CampaignUI.tsx:54 | on a transcript with non-decreasing timestamps the recent selection is a suffix of it |
| Transcript.ChronologicalAppend | app/components/CampaignUI.tsx:163-170 | appending a message stamped no earlier than the last keeps timestamps non-decreasing |
| Transcript.JoinLength | app/components/CampaignUI.tsx:59 | joining n texts with single spaces gives the sum of their lengths plus n - 1 characters |
| Transcript.JoinAppend | app/components/CampaignUI.tsx:62 | joining one more text appends a space and that text to the previous joined text |
| Transcript.Truncate | app/components/CampaignUI.tsx:66-68 | the result is a suffix of the text of length min(length, 500): the text itself when it has at most 500 characters, else its last 500 |
| Transcript.BuildPrompt | app/components/CampaignUI.tsx:40-68 | a built prompt never exceeds 500 characters |
| Transcript.BuildPromptSkips | app/components/CampaignUI.tsx:44-58 | no request exactly when the transcript is empty, or recent-only and no message is newer than now - 8000 |
| Transcript.BuildPromptText | app/components/CampaignUI.tsx:59-68 | a built prompt is the selected texts joined by spaces (length sum + n - 1), unchanged if at most 500 characters, else exactly its last 500 |
| Transcript.FullTextAfterAppend | app/components/CampaignUI.tsx:62 | after an append, the full-transcript text is the old text, a space and the new message's text |
| Transcript.BuildPromptNonEmpty | app/components/CampaignUI.tsx:59-68 | when every utterance text is non-empty, a built prompt is non-empty |
| Transcript.HelloGoblinsScenario | app/components/CampaignUI.tsx:51-62 | "Hello" at 1000 and "Goblins attack" at 9000: the first image at 8000 uses "Hello", the tick at 16000 only "Goblins attack"; an empty transcript skips |
| ImageProxy.Truthy | app/api/fal/generate/route.ts:13 | undefined, null and "" are falsy; every non-empty string is truthy |
| ImageProxy.Rendered | app/api/fal/generate/route.ts:21 | a string prompt is inserted into the template unchanged; only a non-string value's conversion can throw |
| ImageProxy.VendorInputFor | app/api/fal/generate/route.ts:26-33 | the call goes to fal-ai/flux/schnell with the given prompt, landscape_16_9, 4 steps, 1 image, safety checker off |
| ImageProxy.HasUrl | app/api/fal/generate/route.ts:44 | an extracted URL passes `!imageUrl` exactly when it is present and non-empty |
| ImageProxy.EnhancedPrompt | app/api/fal/generate/route.ts:21 | the vendor prompt is the fixed preamble followed by the rendered client prompt, unchanged |
| ImageProxy.FirstUrl | app/api/fal/generate/route.ts:41-42 | a URL is found exactly when the images array exists, is non-empty and its first entry carries a URL, and it is that URL |
| ImageProxy.ExtractUrl | app/api/fal/generate/route.ts:39-42 | the nested data.images[0].url when present and non-empty, otherwise images[0].url |
| ImageProxy.HandlePost | app/api/fal/generate/route.ts:9-61 | 400 "Prompt is required" with no vendor call exactly for a falsy prompt; the vendor is called exactly for a truthy one whose template rendering does not throw, with the fixed input; a truthy prompt whose rendering throws is caught, 500 "Failed to generate image" with no vendor call; 200 with exactly the extracted URL exactly when it is non-empty; 500 "No image generated" with the raw result otherwise; 500 "Failed to generate image" for an unreadable body or a vendor exception; no other status |
| ImageProxy.ThrowingPromptFails | app/api/fal/generate/route.ts:21-59 | a truthy prompt object whose string conversion throws gets 500 "Failed to generate image" and never reaches the vendor, whatever the vendor outcome |
| ImageProxy.ClientPromptIsSuffix | app/api/fal/generate/route.ts:21-28 | a non-empty string prompt reaches the vendor as preamble + prompt, so it is a suffix of the vendor prompt |
| ImageProxy.FixedVendorParameters | app/api/fal/generate/route.ts:26-34 | every vendor call goes to fal-ai/flux/schnell and asks for landscape_16_9, 4 inference steps, 1 image, safety checker off |
| ImageProxy.ResultShapes | app/api/fal/generate/route.ts:39-53 | both the data.images and the images shape with URL X answer 200 {imageUrl: X}; an empty images array answers 500 |
| ImageProxy.EmptyNestedUrlFallsBack | app/api/fal/generate/route.ts:40-42 | an empty nested URL is falsy and falls through to the top-level shape |
| Scheduler.ClientView | app/components/CampaignUI.tsx:83-87 | the client sees a response, ok exactly for a 2xx status, with an imageUrl exactly when the route answered with one, and that URL |
| Scheduler.ShownImage | app/components/CampaignUI.tsx:83-90 | the image is replaced exactly by an ok response carrying a non-empty URL; failures, non-ok responses and falsy URLs keep it |
| Scheduler.ProxyOutcomeShown | app/components/CampaignUI.tsx:74-90 | end to end through the route: the shown image becomes the vendor's extracted URL exactly when the prompt is non-empty and the vendor returned one, otherwise it stays |
| Scheduler.BuiltPromptsReachVendor | app/components/CampaignUI.tsx:59-77 | a prompt built from non-empty utterances always passes the route's prompt check and reaches the vendor |
| Scheduler.EmptyUtteranceRefused | app/components/CampaignUI.tsx:59-85 | a lone empty utterance sends the prompt "", the route answers 400 and the image is unchanged |
| Scheduler.OnMessage | app/components/CampaignUI.tsx:158-170 | the transcript grows by exactly one entry at the end with the message, the time and the mapped speaker; earlier entries and all other state unchanged |
| Scheduler.StartImageGeneration | app/components/CampaignUI.tsx:98-113 | arms one fresh 8000 ms one-shot timer and stores its handle in the ref; every other timer keeps its delay, and nothing else changes but the handle counter |
| Scheduler.OnConnect | app/components/CampaignUI.tsx:134-140 | connected, with a fresh 8000 ms one-shot timer in the ref; older one-shot timers stay live with their delays (the ref is overwritten, not cleared), the handle counter advances by one, and every other field is unchanged |
| Scheduler.GenerateImage | app/components/CampaignUI.tsx:40-71 | the request is the built prompt; a skip changes nothing, a request only raises the in-flight flag |
| Scheduler.EmptyTranscriptSkips | app/components/CampaignUI.tsx:44-47 | with an empty transcript no request and no change, whatever recentOnly is |
| Scheduler.FirstTimeoutFires | app/components/CampaignUI.tsx:102-113 | a live one-shot timer builds from the full transcript, sets lastImageTime to the firing time even on skip, raises the in-flight flag exactly when a request is made, dies, and arms a fresh 8000 ms interval stored in the ref; every other field (the one-shot ref, connection, session, transcript, image) is unchanged; a dead handle changes nothing |
| Scheduler.IntervalTick | app/components/CampaignUI.tsx:108-112 | a live tick builds from the recent window and sets lastImageTime unconditionally; nothing else changes but the in-flight flag |
| Scheduler.CompleteGeneration | app/components/CampaignUI.tsx:83-95 | after a completed attempt the in-flight flag is false and the image is as ShownImage says |
| Scheduler.Cancel | app/components/CampaignUI.tsx:187-192 | clearing the handle in a ref removes exactly that timer, if live, and keeps the others |
| Scheduler.OnDisconnect | app/components/CampaignUI.tsx:141-149 | clears only the interval the ref holds; the one-shot timers and their ref are untouched |
| Scheduler.AttachConversation | app/components/CampaignUI.tsx:174 | the session ref holds a session; nothing else changes |
| Scheduler.EndConversation | app/components/CampaignUI.tsx:182-194 | if a present session's close rejects, nothing changes; otherwise the session ref is null, disconnected, exactly the two timers the refs hold are cleared, and nothing else changes |
| Scheduler.Unmount | app/components/CampaignUI.tsx:197-209 | exactly the two timers the refs hold are cleared; the session ref and everything else are unchanged |
| Scheduler.InitialIsTidy | app/components/CampaignUI.tsx:21-25 | the mounted component has no live timer |
| Scheduler.TidyStep | app/components/CampaignUI.tsx:102-209 | every event except a connect keeps each live timer referenced by its ref and never leaves both kinds live |
| Scheduler.ConnectTidyIff | app/components/CampaignUI.tsx:134-140 | from a tidy state, a connect keeps the timers tidy exactly when no timer was live |
| Scheduler.EndSilences | app/components/CampaignUI.tsx:182-209 | from a tidy state, ending leaves no live timer unless a present session's close rejects, which keeps every timer; unmounting leaves none |
| Scheduler.FailedCloseKeepsTimers | app/components/CampaignUI.tsx:182-189 | when the session close rejects, the session ref stays set and the pending first timeout still fires and sends a request |
| Scheduler.QuietStaysSilent | app/components/CampaignUI.tsx:102-113 | with no live timer and no connect, any sequence of events issues no request and leaves no live timer |
| Scheduler.TidyRun | app/components/CampaignUI.tsx:102-209 | a sequence of events without a connect preserves tidiness |
| Scheduler.NoRequestAfterEnd | app/components/CampaignUI.tsx:182-194 | a session that connects once and ends with a normal close, at any point, issues no request afterwards until the next connect |
| Scheduler.StepDialogue | app/components/CampaignUI.tsx:158-170 | only a message event changes the transcript, and it appends exactly that message |
| Scheduler.ChronologicalRun | app/components/CampaignUI.tsx:163-168 | when message events come with non-decreasing times, no earlier than the last entry, the transcript stays chronological along the whole trace |
| Scheduler.ReachedRecentIsSuffix | app/components/CampaignUI.tsx:53-54 | on such a trace, the recent window a tick reads is a suffix of the reached transcript |
| Scheduler.DisconnectKeepsFirstTimeout | app/components/CampaignUI.tsx:141-149 | after a disconnect the pending first timeout still fires, issues a request on a non-empty transcript, and arms a live interval |
| Scheduler.SilentFirstTimeout | app/components/CampaignUI.tsx:102-106 | a first timeout on an empty transcript skips yet sets lastImageTime and arms the interval |
| Scheduler.ReconnectLeaksInterval | app/components/CampaignUI.tsx:102-148 | disconnect before the first image, reconnect, both one-shot timers fire: after endConversation the first interval is still live, and its tick sends a request while a message under 8 s old exists |
| CampaignSession.Campaign.constructor | app/components/CampaignUI.tsx:13-25 | the new object is the initial state: empty transcript, no image, no timers |
| CampaignSession.Campaign.OnMessage | app/components/CampaignUI.tsx:158-170 | the transcript field becomes the old one plus the new message; the state moves as Scheduler.OnMessage |
| CampaignSession.Campaign.StartImageGeneration | app/components/CampaignUI.tsx:98-113 | the state moves as Scheduler.StartImageGeneration |
| CampaignSession.Campaign.OnConnect | app/components/CampaignUI.tsx:134-140 | connected and the one-shot timer armed, as Scheduler.OnConnect |
| CampaignSession.Campaign.GenerateImage | app/components/CampaignUI.tsx:40-71 | returns the prompt requested and moves as Scheduler.GenerateImage; a skip changes nothing |
| CampaignSession.Campaign.FirstTimeoutFires | app/components/CampaignUI.tsx:102-113 | returns the prompt requested and moves as Scheduler.FirstTimeoutFires |
| CampaignSession.Campaign.IntervalTick | app/components/CampaignUI.tsx:108-112 | returns the prompt requested and moves as Scheduler.IntervalTick |
| CampaignSession.Campaign.CompleteGeneration | app/components/CampaignUI.tsx:83-95 | moves as Scheduler.CompleteGeneration |
| CampaignSession.Campaign.OnDisconnect | app/components/CampaignUI.tsx:141-149 | moves as Scheduler.OnDisconnect; the live one-shot timers are unchanged |
| CampaignSession.Campaign.AttachConversation | app/components/CampaignUI.tsx:174 | the session ref holds a session |
| CampaignSession.Campaign.EndConversation | app/components/CampaignUI.tsx:182-194 | moves as Scheduler.EndConversation for the given close outcome: a rejected close of a present session changes nothing, otherwise the session ref is null |
| CampaignSession.Campaign.Unmount | app/components/CampaignUI.tsx:197-209 | moves as Scheduler.Unmount |

## Left out

- Rendering, auto-scroll and the effect that copies the transcript state into its ref (app/components/CampaignUI.tsx:29-38, 211-305): presentation only. The model reads the transcript directly where the source reads the ref.
- `startConversation` (app/components/CampaignUI.tsx:116-180): the signed-URL fetch, the microphone permission, opening the voice session, `onError`, `onModeChange`, and the `isConnecting`, `isSpeaking` and `error` flags. These are external services and browser permissions. Only the session callbacks that reach the transcript and the timers are modelled, plus the assignment of the session ref at line 174 (`AttachConversation`).
- Closing the voice session (`endSession`) is an external call. Its outcome is an input (`Scheduler.SessionClose`): a normal close resets the session ref, a rejection stops `endConversation` before anything changes. Events that interleave during its `await` are not modelled. Neither is a rejection during unmount, which the source does not await.
- Real time: `Date.now()` becomes the `now` of each event. The model also does not check that a timer fires 8000 ms after it was armed; the delay and period are recorded with each live timer.
- Overlap of in-flight image requests (last response wins on the shown image): concurrency. A completion is an event applied to the current state.
- The `fetch` to the route, `JSON.stringify`/`response.json()`, the vendor's `subscribe` call and its credentials configuration (app/api/fal/generate/route.ts:5-7, 26). These are network and foreign-library calls; their outcomes are inputs (`Scheduler.FetchOutcome`, `ImageProxy.RequestBody`, `ImageProxy.VendorOutcome`). The vendor endpoint is part of the modelled call (`ImageProxy.VendorInput.endpoint`).
- Non-string prompt values: their JavaScript truthiness, their template rendering and whether that rendering throws are inputs (`ImageProxy.NonString`), not computed from the JSON value.
- Logging: all `console.log`/`console.error` calls. The model takes the `JSON.stringify` of the vendor result in the log at app/api/fal/generate/route.ts:36 never to throw, since that result is parsed JSON.
- Strings are sequences of characters, not UTF-16 code units, so `length` and `slice` on text outside the basic plane are not modelled exactly.
- app/layout.tsx and app/page.tsx are not part of this model: fonts, metadata and composition only.
