/**
 * The campaign screen's mutable state (app/components/CampaignUI.tsx): React state, the refs
 * the timer callbacks reassign, and the runtime's live timers, as fields of one object with a
 * method per event. Each method is proved to move the object exactly as the matching step
 * function of `Scheduler` moves its abstract state.
 */
module CampaignSession {
  import opened Wrappers
  import opened Transcript
  import Scheduler

  class Campaign {
    var dialogue: seq<DialogueMessage>
    var currentImage: Option<string>
    var isGeneratingImage: bool
    var isConnected: bool
    /** Whether `conversationRef.current` holds a session. */
    var conversation: bool
    var lastImageTime: int
    /** `firstImageTimeoutRef.current` and `imageIntervalRef.current`. */
    var firstImageTimeout: Option<Scheduler.Handle>
    var imageInterval: Option<Scheduler.Handle>
    /** The runtime's live timers: handle to delay, and handle to period. */
    var timeouts: map<Scheduler.Handle, int>
    var intervals: map<Scheduler.Handle, int>
    var nextHandle: Scheduler.Handle

    /** The abstract state the object stands for. */
    function State(): Scheduler.SchedulerState
      reads this
    {
      Scheduler.SchedulerState(dialogue, currentImage, isGeneratingImage, isConnected, conversation,
        lastImageTime, firstImageTimeout, imageInterval, timeouts, intervals, nextHandle)
    }

    constructor ()
      ensures State() == Scheduler.Initial
    {
      dialogue, currentImage, isGeneratingImage := [], None, false;
      isConnected, conversation, lastImageTime := false, false, 0;
      firstImageTimeout, imageInterval := None, None;
      timeouts, intervals, nextHandle := map[], map[], 1;
    }

    method OnMessage(source: string, message: string, now: int)
      modifies this
      ensures State() == Scheduler.OnMessage(old(State()), source, message, now)
      ensures dialogue == old(dialogue) + [DialogueMessage(SpeakerOf(source), message, now)]
    {
      dialogue := dialogue + [DialogueMessage(SpeakerOf(source), message, now)];
    }

    method StartImageGeneration()
      modifies this
      ensures State() == Scheduler.StartImageGeneration(old(State()))
      ensures firstImageTimeout == Some(old(nextHandle)) && timeouts == old(timeouts)[old(nextHandle) := Scheduler.FirstImageDelayMs]
    {
      var h := nextHandle;
      nextHandle := nextHandle + 1;
      timeouts := timeouts[h := Scheduler.FirstImageDelayMs];
      firstImageTimeout := Some(h);
    }

    method OnConnect()
      modifies this
      ensures State() == Scheduler.OnConnect(old(State()))
    {
      isConnected := true;
      StartImageGeneration();
    }

    /** Up to its request; returns the prompt sent, or `None` when it skips. */
    method GenerateImage(recentOnly: bool, now: int) returns (request: Option<string>)
      modifies this
      ensures Scheduler.GenerateImage(old(State()), recentOnly, now) == Scheduler.Fired(State(), request)
      ensures request == None ==> State() == old(State())
    {
      request := BuildPrompt(dialogue, recentOnly, now);
      if request.Some? {
        isGeneratingImage := true;
      }
    }

    method FirstTimeoutFires(h: Scheduler.Handle, now: int) returns (request: Option<string>)
      modifies this
      ensures Scheduler.FirstTimeoutFires(old(State()), h, now) == Scheduler.Fired(State(), request)
      ensures h in old(timeouts) ==> lastImageTime == now && imageInterval.Some? && imageInterval.value in intervals
    {
      if h in timeouts {
        timeouts := timeouts - {h};
        request := GenerateImage(false, now);
        lastImageTime := now;
        var i := nextHandle;
        nextHandle := nextHandle + 1;
        intervals := intervals[i := Scheduler.ImageIntervalMs];
        imageInterval := Some(i);
      } else {
        request := None;
      }
    }

    method IntervalTick(h: Scheduler.Handle, now: int) returns (request: Option<string>)
      modifies this
      ensures Scheduler.IntervalTick(old(State()), h, now) == Scheduler.Fired(State(), request)
      ensures h in old(intervals) ==> lastImageTime == now
    {
      if h in intervals {
        request := GenerateImage(true, now);
        lastImageTime := now;
      } else {
        request := None;
      }
    }

    method CompleteGeneration(outcome: Scheduler.FetchOutcome)
      modifies this
      ensures State() == Scheduler.CompleteGeneration(old(State()), outcome)
    {
      match outcome {
        case Responded(ok, url) =>
          if ok && url.Some? && url.value != "" {
            currentImage := url;
          }
        case FetchFailed =>
      }
      isGeneratingImage := false;
    }

    method OnDisconnect()
      modifies this
      ensures State() == Scheduler.OnDisconnect(old(State()))
      ensures timeouts == old(timeouts)
    {
      isConnected := false;
      if imageInterval.Some? {
        intervals := intervals - {imageInterval.value};
      }
    }

    method AttachConversation()
      modifies this
      ensures State() == Scheduler.AttachConversation(old(State()))
    {
      conversation := true;
    }

    /** `close` is how the awaited session close settles; a rejection stops the method there. */
    method EndConversation(close: Scheduler.SessionClose)
      modifies this
      ensures State() == Scheduler.EndConversation(old(State()), close)
      ensures old(conversation) && close.CloseFailed? ==> State() == old(State())
      ensures !(old(conversation) && close.CloseFailed?) ==> !conversation
    {
      if conversation {
        if close.CloseFailed? {
          return;
        }
        conversation := false;
      }
      if firstImageTimeout.Some? {
        timeouts := timeouts - {firstImageTimeout.value};
      }
      if imageInterval.Some? {
        intervals := intervals - {imageInterval.value};
      }
      isConnected := false;
    }

    method Unmount()
      modifies this
      ensures State() == Scheduler.Unmount(old(State()))
    {
      if firstImageTimeout.Some? {
        timeouts := timeouts - {firstImageTimeout.value};
      }
      if imageInterval.Some? {
        intervals := intervals - {imageInterval.value};
      }
    }
  }
}
