/**
 * The image-timer state machine of the campaign screen (app/components/CampaignUI.tsx) as pure
 * step functions, one per event. Timer firings are explicit events carrying the time `now`.
 *
 * Timers are kept as the runtime keeps them: every `setTimeout`/`setInterval` returns a fresh
 * handle; `timeouts` and `intervals` map the live handles to their delay or period. The
 * component's refs `firstImageTimeoutRef` and `imageIntervalRef` hold only the handle last
 * stored in them, and clearing a timer does not reset its ref. A timer event for a handle that
 * is not live (already fired or cleared) changes nothing.
 */
module Scheduler {
  import opened Wrappers
  import opened Transcript
  import ImageProxy

  type Handle = nat

  /** Delay of the one-shot timer armed on connect, in milliseconds. */
  const FirstImageDelayMs: int := 8000
  /** Period of the recurring timer armed when the one-shot timer fires, in milliseconds. */
  const ImageIntervalMs: int := 8000

  /**
   * What `generateImage` sees of its request to the proxy: `FetchFailed` when `fetch` or
   * `response.json()` throws; otherwise `response.ok` and the body's `imageUrl` field.
   */
  datatype FetchOutcome = FetchFailed | Responded(ok: bool, imageUrl: Option<string>)

  /** How a response of the proxy route reaches the client. */
  function ClientView(resp: ImageProxy.Response): (r: FetchOutcome)
    ensures r.Responded?
    ensures r.ok <==> 200 <= resp.status < 300
    ensures r.imageUrl.Some? <==> resp.body.ImageUrl?
    ensures resp.body.ImageUrl? ==> r.imageUrl == Some(resp.body.imageUrl)
  {
    Responded(200 <= resp.status < 300, if resp.body.ImageUrl? then Some(resp.body.imageUrl) else None)
  }

  /**
   * The image shown after a completed request: a non-ok response, a failure or a falsy
   * `imageUrl` leaves the current image; an ok response with a non-empty URL replaces it.
   */
  function ShownImage(current: Option<string>, outcome: FetchOutcome): (r: Option<string>)
    ensures outcome.Responded? && outcome.ok && outcome.imageUrl.Some? && outcome.imageUrl.value != "" ==>
      r == outcome.imageUrl
    ensures !(outcome.Responded? && outcome.ok && outcome.imageUrl.Some? && outcome.imageUrl.value != "") ==>
      r == current
  {
    match outcome
    case FetchFailed => current
    case Responded(ok, url) => if ok && url.Some? && url.value != "" then url else current
  }

  /** End to end: a prompt the route serves shows the vendor's URL; every other outcome keeps the image. */
  lemma ProxyOutcomeShown(current: Option<string>, p: string, vendor: ImageProxy.VendorOutcome)
    ensures var x := ImageProxy.HandlePost(ImageProxy.Json(ImageProxy.Str(p)), vendor);
      ShownImage(current, ClientView(x.response)) ==
        if p != "" && vendor.Returned? && ImageProxy.HasUrl(ImageProxy.ExtractUrl(vendor.result))
        then ImageProxy.ExtractUrl(vendor.result)
        else current
  {
  }

  /** Prompts built from non-empty utterances always pass the route's prompt check. */
  lemma BuiltPromptsReachVendor(msgs: seq<DialogueMessage>, recentOnly: bool, now: int, vendor: ImageProxy.VendorOutcome)
    requires forall i :: 0 <= i < |msgs| ==> msgs[i].text != ""
    requires BuildPrompt(msgs, recentOnly, now).Some?
    ensures ImageProxy.HandlePost(ImageProxy.Json(ImageProxy.Str(BuildPrompt(msgs, recentOnly, now).value)), vendor).vendorCall.Some?
  {
    BuildPromptNonEmpty(msgs, recentOnly, now);
  }

  /**
   * A transcript holding one empty utterance still issues a request, with prompt "", which the
   * route refuses with 400; the displayed image stays as it was.
   */
  lemma EmptyUtteranceRefused(current: Option<string>, now: int, vendor: ImageProxy.VendorOutcome)
    ensures var p := BuildPrompt([DialogueMessage(Team, "", 0)], false, now);
      var resp := ImageProxy.HandlePost(ImageProxy.Json(ImageProxy.Str(p.value)), vendor).response;
      p == Some("") && resp.status == 400 && ShownImage(current, ClientView(resp)) == current
  {
  }

  /** The component's state and refs, with the runtime's table of live timers. */
  datatype SchedulerState = SchedulerState(
    dialogue: seq<DialogueMessage>,
    currentImage: Option<string>,
    isGeneratingImage: bool,
    isConnected: bool,
    conversation: bool,
    lastImageTime: int,
    firstImageTimeout: Option<Handle>,
    imageInterval: Option<Handle>,
    timeouts: map<Handle, int>,
    intervals: map<Handle, int>,
    nextHandle: Handle)

  /** The freshly mounted component; timer handles start at 1, as browser timer ids do. */
  const Initial: SchedulerState :=
    SchedulerState([], None, false, false, false, 0, None, None, map[], map[], 1)

  /** A state after an event, and the prompt of the image request it issued, if any. */
  datatype Fired = Fired(state: SchedulerState, request: Option<string>)

  /** `onMessage`: append the utterance, stamped with the current time. */
  function OnMessage(s: SchedulerState, source: string, message: string, now: int): (r: SchedulerState)
    ensures |r.dialogue| == |s.dialogue| + 1 && r.dialogue[..|s.dialogue|] == s.dialogue
    ensures var m := r.dialogue[|s.dialogue|];
      m.text == message && m.timestamp == now && (m.speaker == DungeonMaster <==> source == "ai")
    ensures r == s.(dialogue := r.dialogue)
  {
    s.(dialogue := s.dialogue + [DialogueMessage(SpeakerOf(source), message, now)])
  }

  /** `startImageGeneration`: arm the one-shot timer and store its handle in the ref. */
  function StartImageGeneration(s: SchedulerState): (r: SchedulerState)
    ensures r.firstImageTimeout == Some(s.nextHandle) && r.nextHandle > s.nextHandle
    ensures s.nextHandle in r.timeouts && r.timeouts[s.nextHandle] == FirstImageDelayMs
    ensures r.timeouts.Keys == s.timeouts.Keys + {s.nextHandle}
    ensures forall h :: h in s.timeouts && h != s.nextHandle ==> r.timeouts[h] == s.timeouts[h]
    ensures r == s.(timeouts := r.timeouts, firstImageTimeout := r.firstImageTimeout, nextHandle := r.nextHandle)
  {
    var h := s.nextHandle;
    s.(timeouts := s.timeouts[h := FirstImageDelayMs], firstImageTimeout := Some(h), nextHandle := h + 1)
  }

  /** `onConnect`: mark connected and start the image cycle. */
  function OnConnect(s: SchedulerState): (r: SchedulerState)
    ensures r.isConnected && r.firstImageTimeout == Some(s.nextHandle)
    ensures s.nextHandle in r.timeouts && r.timeouts[s.nextHandle] == FirstImageDelayMs
    ensures r.timeouts == s.timeouts[s.nextHandle := FirstImageDelayMs]
    ensures r.timeouts.Keys == s.timeouts.Keys + {s.nextHandle}
    ensures forall h :: h in s.timeouts && h != s.nextHandle ==> r.timeouts[h] == s.timeouts[h]
    ensures r.nextHandle == s.nextHandle + 1
    ensures r == s.(isConnected := true, timeouts := r.timeouts, firstImageTimeout := r.firstImageTimeout,
                    nextHandle := r.nextHandle)
  {
    StartImageGeneration(s.(isConnected := true))
  }

  /**
   * `generateImage(recentOnly)` up to its request: the prompt it sends, if any; the in-flight
   * flag is raised only when a request is issued.
   */
  function GenerateImage(s: SchedulerState, recentOnly: bool, now: int): (f: Fired)
    ensures f.request == BuildPrompt(s.dialogue, recentOnly, now)
    ensures f.request == None ==> f.state == s
    ensures f.request.Some? ==> f.state == s.(isGeneratingImage := true)
  {
    var p := BuildPrompt(s.dialogue, recentOnly, now);
    Fired(if p.Some? then s.(isGeneratingImage := true) else s, p)
  }

  /** With an empty transcript no request is made and nothing changes, whatever `recentOnly` is. */
  lemma EmptyTranscriptSkips(s: SchedulerState, recentOnly: bool, now: int)
    requires s.dialogue == []
    ensures GenerateImage(s, recentOnly, now) == Fired(s, None)
  {
  }

  /**
   * The one-shot timer fires: build from the whole transcript, record the time whether or not
   * a request was made, and arm the recurring timer.
   */
  function FirstTimeoutFires(s: SchedulerState, h: Handle, now: int): (f: Fired)
    ensures h !in s.timeouts ==> f == Fired(s, None)
    ensures h in s.timeouts ==>
      f.request == BuildPrompt(s.dialogue, false, now) &&
      f.state == s.(timeouts := s.timeouts - {h},
                    isGeneratingImage := s.isGeneratingImage || f.request.Some?,
                    lastImageTime := now,
                    imageInterval := Some(s.nextHandle),
                    intervals := s.intervals[s.nextHandle := ImageIntervalMs],
                    nextHandle := s.nextHandle + 1)
  {
    if h !in s.timeouts then Fired(s, None)
    else
      var g := GenerateImage(s.(timeouts := s.timeouts - {h}), false, now);
      var i := g.state.nextHandle;
      Fired(g.state.(lastImageTime := now, imageInterval := Some(i),
                     intervals := g.state.intervals[i := ImageIntervalMs], nextHandle := i + 1),
            g.request)
  }

  /** A tick of a recurring timer: build from the recent window and record the time regardless. */
  function IntervalTick(s: SchedulerState, h: Handle, now: int): (f: Fired)
    ensures h !in s.intervals ==> f == Fired(s, None)
    ensures h in s.intervals ==>
      f.request == BuildPrompt(s.dialogue, true, now) &&
      f.state == s.(lastImageTime := now, isGeneratingImage := s.isGeneratingImage || f.request.Some?)
  {
    if h !in s.intervals then Fired(s, None)
    else
      var g := GenerateImage(s, true, now);
      Fired(g.state.(lastImageTime := now), g.request)
  }

  /** The rest of `generateImage` once its request settles (the `try`/`finally`). */
  function CompleteGeneration(s: SchedulerState, outcome: FetchOutcome): (r: SchedulerState)
    ensures !r.isGeneratingImage
    ensures r == s.(isGeneratingImage := false, currentImage := ShownImage(s.currentImage, outcome))
  {
    s.(isGeneratingImage := false, currentImage := ShownImage(s.currentImage, outcome))
  }

  /** `clearTimeout`/`clearInterval` of the handle a ref holds; clearing a dead handle does nothing. */
  function Cancel(m: map<Handle, int>, ref: Option<Handle>): (r: map<Handle, int>)
    ensures ref.Some? ==> ref.value !in r
    ensures forall h :: h in r <==> h in m && ref != Some(h)
    ensures forall h :: h in r ==> r[h] == m[h]
  {
    if ref.Some? then m - {ref.value} else m
  }

  /** `onDisconnect`: clears only the recurring timer; a pending one-shot timer stays armed. */
  function OnDisconnect(s: SchedulerState): (r: SchedulerState)
    ensures r.timeouts == s.timeouts && r.firstImageTimeout == s.firstImageTimeout
    ensures s.imageInterval.Some? ==> s.imageInterval.value !in r.intervals
    ensures r == s.(isConnected := false, intervals := Cancel(s.intervals, s.imageInterval))
  {
    s.(isConnected := false, intervals := Cancel(s.intervals, s.imageInterval))
  }

  /** `conversationRef.current = conversation` once the voice session object exists. */
  function AttachConversation(s: SchedulerState): (r: SchedulerState)
    ensures r.conversation && r == s.(conversation := true)
  {
    s.(conversation := true)
  }

  /**
   * The outcome of `await conversationRef.current.endSession()`: the vendor's session close
   * either resolves or rejects.
   */
  datatype SessionClose = Closed | CloseFailed

  /**
   * `endConversation`: end and drop the session, then clear both timers its refs hold. When a
   * session is present and closing it rejects, the function stops at the `await` and nothing
   * changes.
   */
  function EndConversation(s: SchedulerState, close: SessionClose): (r: SchedulerState)
    ensures s.conversation && close.CloseFailed? ==> r == s
    ensures !(s.conversation && close.CloseFailed?) ==>
      !r.conversation && !r.isConnected &&
      r.timeouts == Cancel(s.timeouts, s.firstImageTimeout) &&
      r.intervals == Cancel(s.intervals, s.imageInterval) &&
      r == s.(conversation := false, isConnected := false, timeouts := r.timeouts, intervals := r.intervals)
  {
    if s.conversation && close.CloseFailed? then s
    else
      s.(conversation := false, isConnected := false,
         timeouts := Cancel(s.timeouts, s.firstImageTimeout),
         intervals := Cancel(s.intervals, s.imageInterval))
  }

  /** The unmount cleanup: the same clearing, but the session ref is not reset. */
  function Unmount(s: SchedulerState): (r: SchedulerState)
    ensures r.timeouts == Cancel(s.timeouts, s.firstImageTimeout)
    ensures r.intervals == Cancel(s.intervals, s.imageInterval)
    ensures r == s.(timeouts := r.timeouts, intervals := r.intervals)
  {
    s.(timeouts := Cancel(s.timeouts, s.firstImageTimeout),
       intervals := Cancel(s.intervals, s.imageInterval))
  }

  /**
   * What can happen to the component, one constructor per step function: `Message` is `OnMessage`,
   * `Connect`/`Disconnect` are `OnConnect`/`OnDisconnect`, `FirstTimeout` and `Tick` fire timers,
   * `Completed` is `CompleteGeneration`, `Attach` is `AttachConversation`, `End` is
   * `EndConversation` and `Unmounted` is `Unmount`.
   */
  datatype Event =
    | Message(source: string, text: string, now: int)
    | Connect
    | FirstTimeout(handle: Handle, now: int)
    | Tick(handle: Handle, now: int)
    | Completed(outcome: FetchOutcome)
    | Disconnect
    | Attach
    | End(close: SessionClose)
    | Unmounted

  function Step(s: SchedulerState, e: Event): Fired
  {
    match e
    case Message(source, text, now) => Fired(OnMessage(s, source, text, now), None)
    case Connect => Fired(OnConnect(s), None)
    case FirstTimeout(h, now) => FirstTimeoutFires(s, h, now)
    case Tick(h, now) => IntervalTick(s, h, now)
    case Completed(outcome) => Fired(CompleteGeneration(s, outcome), None)
    case Disconnect => Fired(OnDisconnect(s), None)
    case Attach => Fired(AttachConversation(s), None)
    case End(close) => Fired(EndConversation(s, close), None)
    case Unmounted => Fired(Unmount(s), None)
  }

  /** The final state after a sequence of events, and the prompts of the requests issued. */
  datatype Trace = Trace(state: SchedulerState, requests: seq<string>)

  function Run(s: SchedulerState, events: seq<Event>): Trace
    decreases |events|
  {
    if events == [] then Trace(s, [])
    else
      var f := Step(s, events[0]);
      var t := Run(f.state, events[1..]);
      Trace(t.state, (if f.request.Some? then [f.request.value] else []) + t.requests)
  }

  /** Only a message event changes the transcript, and it appends one message. */
  lemma StepDialogue(s: SchedulerState, e: Event)
    ensures Step(s, e).state.dialogue ==
      if e.Message? then s.dialogue + [DialogueMessage(SpeakerOf(e.source), e.text, e.now)] else s.dialogue
  {
  }

  /** Every message event of the trace is stamped no earlier than `t` nor than any message before it. */
  ghost predicate MessageClock(events: seq<Event>, t: int)
  {
    (forall i :: 0 <= i < |events| && events[i].Message? ==> t <= events[i].now) &&
    (forall i, j :: 0 <= i < j < |events| && events[i].Message? && events[j].Message? ==>
      events[i].now <= events[j].now)
  }

  /**
   * When message events arrive with non-decreasing times, no earlier than the transcript's last
   * entry, the transcript stays chronological along the whole trace.
   */
  lemma {:induction false} ChronologicalRun(s: SchedulerState, events: seq<Event>, t: int)
    requires Chronological(s.dialogue)
    requires |s.dialogue| > 0 ==> s.dialogue[|s.dialogue| - 1].timestamp <= t
    requires MessageClock(events, t)
    ensures Chronological(Run(s, events).state.dialogue)
    decreases |events|
  {
    if events != [] {
      var e := events[0];
      var next := Step(s, e).state;
      StepDialogue(s, e);
      var t' := if e.Message? then e.now else t;
      if e.Message? {
        ChronologicalAppend(s.dialogue, DialogueMessage(SpeakerOf(e.source), e.text, e.now));
      }
      assert MessageClock(events[1..], t') by {
        forall i | 0 <= i < |events[1..]| && events[1..][i].Message? ensures t' <= events[1..][i].now {
          assert events[1..][i] == events[i + 1];
        }
        forall i, j | 0 <= i < j < |events[1..]| && events[1..][i].Message? && events[1..][j].Message?
          ensures events[1..][i].now <= events[1..][j].now
        {
          assert events[1..][i] == events[i + 1] && events[1..][j] == events[j + 1];
        }
      }
      ChronologicalRun(next, events[1..], t');
    }
  }

  /** On such a trace, the recent window read by a tick is a suffix of the reached transcript. */
  lemma ReachedRecentIsSuffix(s: SchedulerState, events: seq<Event>, t: int, cutoff: int)
    requires Chronological(s.dialogue)
    requires |s.dialogue| > 0 ==> s.dialogue[|s.dialogue| - 1].timestamp <= t
    requires MessageClock(events, t)
    ensures var d := Run(s, events).state.dialogue;
      Recent(d, cutoff) == d[|d| - |Recent(d, cutoff)|..]
  {
    ChronologicalRun(s, events, t);
    RecentIsSuffix(Run(s, events).state.dialogue, cutoff);
  }

  /** No timer is live. */
  predicate Quiet(s: SchedulerState)
  {
    s.timeouts == map[] && s.intervals == map[]
  }

  /**
   * Every live timer is the one its ref holds, handles are below the next fresh one, and the
   * one-shot and the recurring timer are never live together: the component can still cancel
   * everything it started.
   */
  ghost predicate Tidy(s: SchedulerState)
  {
    (forall h :: h in s.timeouts ==> h < s.nextHandle && s.firstImageTimeout == Some(h)) &&
    (forall h :: h in s.intervals ==> h < s.nextHandle && s.imageInterval == Some(h)) &&
    (s.timeouts == map[] || s.intervals == map[])
  }

  lemma InitialIsTidy()
    ensures Quiet(Initial) && Tidy(Initial)
  {
  }

  /** Every event except a connect keeps the timers tidy. */
  lemma TidyStep(s: SchedulerState, e: Event)
    requires Tidy(s) && !e.Connect?
    ensures Tidy(Step(s, e).state)
  {
  }

  /** A connect keeps the timers tidy exactly when none was live before it. */
  lemma ConnectTidyIff(s: SchedulerState)
    requires Tidy(s)
    ensures Tidy(OnConnect(s)) <==> Quiet(s)
  {
  }

  /**
   * From a tidy state, ending the conversation leaves no live timer unless closing a present
   * session rejects, in which case every timer stays as it was; unmounting always leaves none.
   */
  lemma EndSilences(s: SchedulerState, close: SessionClose)
    requires Tidy(s)
    ensures !(s.conversation && close.CloseFailed?) ==>
      Quiet(EndConversation(s, close)) && !EndConversation(s, close).conversation
    ensures s.conversation && close.CloseFailed? ==>
      EndConversation(s, close).timeouts == s.timeouts && EndConversation(s, close).intervals == s.intervals
    ensures Quiet(Unmount(s))
  {
  }

  /** Without a connect event, no timer comes back to life and no request is issued. */
  lemma {:induction false} QuietStaysSilent(s: SchedulerState, events: seq<Event>)
    requires Quiet(s)
    requires forall i :: 0 <= i < |events| ==> !events[i].Connect?
    ensures Run(s, events).requests == [] && Quiet(Run(s, events).state)
    decreases |events|
  {
    if events != [] {
      var f := Step(s, events[0]);
      assert f.request == None && Quiet(f.state);
      QuietStaysSilent(f.state, events[1..]);
    }
  }

  /** Events other than connects preserve tidiness along a whole trace. */
  lemma {:induction false} TidyRun(s: SchedulerState, events: seq<Event>)
    requires Tidy(s)
    requires forall i :: 0 <= i < |events| ==> !events[i].Connect?
    ensures Tidy(Run(s, events).state)
    decreases |events|
  {
    if events != [] {
      TidyStep(s, events[0]);
      TidyRun(Step(s, events[0]).state, events[1..]);
    }
  }

  /**
   * A session that connects once and then ends, with the session closing normally, issues no
   * request afterwards until the next connect: ending cancels every timer the session started.
   */
  lemma NoRequestAfterEnd(before: seq<Event>, after: seq<Event>)
    requires forall i :: 0 <= i < |before| ==> !before[i].Connect?
    requires forall i :: 0 <= i < |after| ==> !after[i].Connect?
    ensures Run(EndConversation(Run(OnConnect(Initial), before).state, Closed), after).requests == []
  {
    ConnectTidyIff(Initial);
    TidyRun(OnConnect(Initial), before);
    EndSilences(Run(OnConnect(Initial), before).state, Closed);
    QuietStaysSilent(EndConversation(Run(OnConnect(Initial), before).state, Closed), after);
  }

  /**
   * A rejected session close leaves the timers running: after a connect and a session attach,
   * the first timeout still fires and issues a request once something was said.
   */
  lemma FailedCloseKeepsTimers(source: string, text: string, now: int)
    ensures var s := OnMessage(AttachConversation(OnConnect(Initial)), source, text, now);
      var e := EndConversation(s, CloseFailed);
      e.conversation && 1 in e.timeouts && FirstTimeoutFires(e, 1, now).request.Some?
  {
  }

  /**
   * A disconnect before the first image does not stop it: the one-shot timer stays armed and,
   * firing later with a non-empty transcript, still issues a request and arms a new interval.
   */
  lemma DisconnectKeepsFirstTimeout(s: SchedulerState, now: int)
    requires s.firstImageTimeout.Some? && s.firstImageTimeout.value in s.timeouts
    requires |s.dialogue| > 0
    ensures var d := OnDisconnect(s);
      var f := FirstTimeoutFires(d, s.firstImageTimeout.value, now);
      f.request.Some? && f.state.imageInterval.Some? && f.state.imageInterval.value in f.state.intervals
  {
  }

  /** The first image of a session that heard nothing yet is skipped, yet lastImageTime moves. */
  lemma SilentFirstTimeout(now: int)
    ensures var s := OnConnect(Initial);
      var f := FirstTimeoutFires(s, 1, now);
      f.request == None && f.state.lastImageTime == now && 2 in f.state.intervals
  {
  }

  /**
   * Disconnecting before the first image and reconnecting leaves two one-shot timers; the
   * older one's interval is overwritten in the ref and keeps running after `endConversation`.
   * Its ticks send a request while some message is under 8 s old, and skip otherwise.
   */
  lemma ReconnectLeaksInterval()
    ensures var s1 := OnMessage(OnConnect(Initial), "user", "We enter the cave", 1000);
      var s2 := OnConnect(OnDisconnect(s1));
      var s3 := FirstTimeoutFires(s2, 1, 8000).state;
      var s4 := OnMessage(s3, "ai", "A dragon wakes", 13000);
      var s5 := FirstTimeoutFires(s4, 2, 14000).state;
      var s6 := EndConversation(s5, Closed);
      3 in s6.intervals && IntervalTick(s6, 3, 16000).request == Some("A dragon wakes") &&
      IntervalTick(s6, 3, 24000).request == None && 3 in IntervalTick(s6, 3, 24000).state.intervals
  {
    var s1 := OnMessage(OnConnect(Initial), "user", "We enter the cave", 1000);
    var s2 := OnConnect(OnDisconnect(s1));
    assert s2.timeouts.Keys == {1, 2} && s2.nextHandle == 3;
    var s3 := FirstTimeoutFires(s2, 1, 8000).state;
    assert s3.intervals.Keys == {3} && s3.nextHandle == 4;
    var s4 := OnMessage(s3, "ai", "A dragon wakes", 13000);
    var s5 := FirstTimeoutFires(s4, 2, 14000).state;
    assert s5.intervals.Keys == {3, 4} && s5.imageInterval == Some(4);
    var s6 := EndConversation(s5, Closed);
    assert 3 in s6.intervals;
    var d := s6.dialogue;
    assert Recent(d, 8000) == [d[1]] by {
      assert Recent(d[1..], 8000) == [d[1]] + Recent(d[2..], 8000);
    }
  }
}
