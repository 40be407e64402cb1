/**
 * The transcript log of the campaign screen and the prompt builder that turns it into
 * the text of an image request (app/components/CampaignUI.tsx).
 */
module Transcript {
  import opened Wrappers

  /** Width of the "recent" window used by interval ticks, in milliseconds. */
  const RecentWindowMs: int := 8000
  /** The prompt keeps at most this many trailing characters. */
  const MaxPromptLength: nat := 500

  datatype Speaker = DungeonMaster | Team

  datatype DialogueMessage = DialogueMessage(speaker: Speaker, text: string, timestamp: int)

  /** The voice vendor reports `"ai"` for the agent's turns; every other source is the team. */
  function SpeakerOf(source: string): (r: Speaker)
    ensures r == DungeonMaster <==> source == "ai"
  {
    if source == "ai" then DungeonMaster else Team
  }

  /** The texts of the messages, in order. */
  function Texts(msgs: seq<DialogueMessage>): (r: seq<string>)
    ensures |r| == |msgs|
    ensures forall i :: 0 <= i < |msgs| ==> r[i] == msgs[i].text
  {
    seq(|msgs|, i requires 0 <= i < |msgs| => msgs[i].text)
  }

  /** JavaScript's `texts.join(" ")`: no texts join to "", a single text joins to itself. */
  function Join(texts: seq<string>): (r: string)
    ensures |texts| == 0 ==> r == ""
    ensures |texts| == 1 ==> r == texts[0]
  {
    if |texts| == 0 then ""
    else if |texts| == 1 then texts[0]
    else texts[0] + " " + Join(texts[1..])
  }

  /** The joined text starts with the first text and ends with the last, the latest utterance. */
  lemma {:induction false} JoinEnds(texts: seq<string>)
    requires |texts| > 0
    ensures |Join(texts)| >= |texts[0]| && Join(texts)[..|texts[0]|] == texts[0]
    ensures |Join(texts)| >= |texts[|texts| - 1]| &&
      Join(texts)[|Join(texts)| - |texts[|texts| - 1]|..] == texts[|texts| - 1]
  {
    if |texts| > 1 {
      JoinEnds(texts[1..]);
      assert texts[1..][|texts[1..]| - 1] == texts[|texts| - 1];
    }
  }

  /** Sum of the lengths of the texts, an independent measure for `Join`. */
  function TotalLength(texts: seq<string>): nat
  {
    if |texts| == 0 then 0 else |texts[0]| + TotalLength(texts[1..])
  }

  /** Joining n texts adds exactly n - 1 separators. */
  lemma {:induction false} JoinLength(texts: seq<string>)
    requires |texts| > 0
    ensures |Join(texts)| == TotalLength(texts) + |texts| - 1
  {
    if |texts| > 1 {
      JoinLength(texts[1..]);
    }
  }

  /** Appending a text to the list extends the joined text by a space and that text. */
  lemma {:induction false} JoinAppend(texts: seq<string>, t: string)
    requires |texts| > 0
    ensures Join(texts + [t]) == Join(texts) + " " + t
  {
    assert (texts + [t])[0] == texts[0];
    if |texts| == 1 {
      assert (texts + [t])[1..] == [t];
    } else {
      assert (texts + [t])[1..] == texts[1..] + [t];
      JoinAppend(texts[1..], t);
    }
  }

  /** `text.slice(-500)` when the text is longer than 500 characters, otherwise the text. */
  function Truncate(s: string): (r: string)
    ensures |r| == if |s| > MaxPromptLength then MaxPromptLength else |s|
    ensures r == s[|s| - |r|..]
  {
    if |s| > MaxPromptLength then s[|s| - MaxPromptLength..] else s
  }

  /** `messages.filter(m => m.timestamp > cutoff)`. */
  function Recent(msgs: seq<DialogueMessage>, cutoff: int): (r: seq<DialogueMessage>)
    ensures |r| <= |msgs|
    ensures forall k :: 0 <= k < |r| ==> r[k].timestamp > cutoff
    ensures r == [] <==> forall i :: 0 <= i < |msgs| ==> msgs[i].timestamp <= cutoff
  {
    if msgs == [] then []
    else
      var rest := Recent(msgs[1..], cutoff);
      assert (forall i :: 0 <= i < |msgs| ==> msgs[i].timestamp <= cutoff) <==>
        msgs[0].timestamp <= cutoff && forall i :: 0 <= i < |msgs[1..]| ==> msgs[1..][i].timestamp <= cutoff by {
        forall i | 1 <= i < |msgs| ensures msgs[i] == msgs[1..][i - 1] { }
      }
      (if msgs[0].timestamp > cutoff then [msgs[0]] else []) + rest
  }

  /** The positions `Recent` takes its messages from, in increasing order. */
  function RecentPositions(msgs: seq<DialogueMessage>, cutoff: int): seq<int>
  {
    if msgs == [] then []
    else (if msgs[0].timestamp > cutoff then [0] else []) + Shifted(RecentPositions(msgs[1..], cutoff))
  }

  /**
   * The recent selection is exactly the subsequence of the messages newer than the cutoff,
   * in their original order: `idx` lists, increasing, the positions it takes its messages from,
   * and a position appears in `idx` exactly when its message is newer than the cutoff.
   */
  lemma RecentIsOrderedSelection(msgs: seq<DialogueMessage>, cutoff: int)
    returns (idx: seq<int>)
    ensures |idx| == |Recent(msgs, cutoff)|
    ensures forall k :: 0 <= k < |idx| ==> 0 <= idx[k] < |msgs| && Recent(msgs, cutoff)[k] == msgs[idx[k]]
    ensures forall k, l :: 0 <= k < l < |idx| ==> idx[k] < idx[l]
    ensures forall i :: 0 <= i < |msgs| ==> (msgs[i].timestamp > cutoff <==> i in idx)
  {
    idx := RecentPositions(msgs, cutoff);
    PositionsPick(msgs, cutoff);
    PositionsIncrease(msgs, cutoff);
    PositionsExact(msgs, cutoff);
  }

  lemma {:induction false} PositionsPick(msgs: seq<DialogueMessage>, cutoff: int)
    ensures var idx := RecentPositions(msgs, cutoff);
      |idx| == |Recent(msgs, cutoff)| &&
      forall k :: 0 <= k < |idx| ==> 0 <= idx[k] < |msgs| && Recent(msgs, cutoff)[k] == msgs[idx[k]]
  {
    if msgs != [] {
      var tail := msgs[1..];
      PositionsPick(tail, cutoff);
      var rest := RecentPositions(tail, cutoff);
      var head: seq<int> := if msgs[0].timestamp > cutoff then [0] else [];
      var idx := head + Shifted(rest);
      assert idx == RecentPositions(msgs, cutoff);
      var r := Recent(msgs, cutoff);
      assert r == (if msgs[0].timestamp > cutoff then [msgs[0]] else []) + Recent(tail, cutoff);
      forall k | 0 <= k < |idx|
        ensures 0 <= idx[k] < |msgs| && r[k] == msgs[idx[k]]
      {
        if k >= |head| {
          assert idx[k] == rest[k - |head|] + 1;
          assert r[k] == Recent(tail, cutoff)[k - |head|];
        }
      }
    }
  }

  lemma {:induction false} PositionsIncrease(msgs: seq<DialogueMessage>, cutoff: int)
    ensures forall k :: 0 <= k < |RecentPositions(msgs, cutoff)| ==> 0 <= RecentPositions(msgs, cutoff)[k]
    ensures forall k, l :: 0 <= k < l < |RecentPositions(msgs, cutoff)| ==>
      RecentPositions(msgs, cutoff)[k] < RecentPositions(msgs, cutoff)[l]
  {
    if msgs != [] {
      PositionsIncrease(msgs[1..], cutoff);
      var rest := RecentPositions(msgs[1..], cutoff);
      assert forall k :: 0 <= k < |rest| ==> 0 <= rest[k];
      var head: seq<int> := if msgs[0].timestamp > cutoff then [0] else [];
      var idx := head + Shifted(rest);
      assert idx == RecentPositions(msgs, cutoff);
      forall k | 0 <= k < |idx| ensures 0 <= idx[k] {
        if k >= |head| {
          assert idx[k] == rest[k - |head|] + 1;
        }
      }
      forall k, l | 0 <= k < l < |idx| ensures idx[k] < idx[l] {
        if k >= |head| {
          assert idx[k] == rest[k - |head|] + 1 && idx[l] == rest[l - |head|] + 1;
        } else {
          assert idx[k] == 0 && idx[l] == rest[l - |head|] + 1;
        }
      }
    }
  }

  lemma {:induction false} PositionsExact(msgs: seq<DialogueMessage>, cutoff: int)
    ensures forall i :: 0 <= i < |msgs| ==> (msgs[i].timestamp > cutoff <==> i in RecentPositions(msgs, cutoff))
  {
    if msgs != [] {
      var tail := msgs[1..];
      PositionsExact(tail, cutoff);
      PositionsIncrease(tail, cutoff);
      var rest := RecentPositions(tail, cutoff);
      ShiftedMembership(rest);
      var head: seq<int> := if msgs[0].timestamp > cutoff then [0] else [];
      var idx := head + Shifted(rest);
      assert idx == RecentPositions(msgs, cutoff);
      forall i | 0 <= i < |msgs|
        ensures msgs[i].timestamp > cutoff <==> i in idx
      {
        if i > 0 {
          assert msgs[i] == tail[i - 1];
          assert i in idx <==> i in Shifted(rest);
        } else {
          assert forall k :: 0 <= k < |rest| ==> rest[k] >= 0;
          assert 0 !in Shifted(rest);
        }
      }
    }
  }

  /** Every position of `rest` moved up by one. */
  function Shifted(rest: seq<int>): (s: seq<int>)
    ensures |s| == |rest| && forall k :: 0 <= k < |rest| ==> s[k] == rest[k] + 1
  {
    seq(|rest|, k requires 0 <= k < |rest| => rest[k] + 1)
  }

  lemma ShiftedMembership(rest: seq<int>)
    ensures forall i :: i in Shifted(rest) <==> i - 1 in rest
  {
  }

  /** Timestamps assigned at append time never decrease along the transcript. */
  ghost predicate Chronological(msgs: seq<DialogueMessage>)
  {
    forall i, j :: 0 <= i < j < |msgs| ==> msgs[i].timestamp <= msgs[j].timestamp
  }

  /** Appending a message stamped no earlier than the last keeps the transcript chronological. */
  lemma ChronologicalAppend(msgs: seq<DialogueMessage>, m: DialogueMessage)
    requires Chronological(msgs)
    requires |msgs| > 0 ==> msgs[|msgs| - 1].timestamp <= m.timestamp
    ensures Chronological(msgs + [m])
  {
  }

  /** On a chronological transcript the recent selection is a suffix of it. */
  lemma {:induction false} RecentIsSuffix(msgs: seq<DialogueMessage>, cutoff: int)
    requires Chronological(msgs)
    ensures Recent(msgs, cutoff) == msgs[|msgs| - |Recent(msgs, cutoff)|..]
  {
    if msgs != [] {
      RecentIsSuffix(msgs[1..], cutoff);
      if msgs[0].timestamp > cutoff {
        AllRecent(msgs, cutoff);
      }
    }
  }

  lemma {:induction false} AllRecent(msgs: seq<DialogueMessage>, cutoff: int)
    requires forall i :: 0 <= i < |msgs| ==> msgs[i].timestamp > cutoff
    ensures Recent(msgs, cutoff) == msgs
  {
    if msgs != [] {
      AllRecent(msgs[1..], cutoff);
    }
  }

  /** The messages `generateImage(recentOnly)` draws its text from at time `now`. */
  function Selected(msgs: seq<DialogueMessage>, recentOnly: bool, now: int): (r: seq<DialogueMessage>)
    ensures |r| <= |msgs|
    ensures !recentOnly ==> r == msgs
    ensures recentOnly ==> forall k :: 0 <= k < |r| ==> r[k].timestamp > now - RecentWindowMs
  {
    if recentOnly then Recent(msgs, now - RecentWindowMs) else msgs
  }

  /**
   * The prompt `generateImage(recentOnly)` sends at time `now`, or `None` when it returns
   * early without a request.
   */
  function BuildPrompt(msgs: seq<DialogueMessage>, recentOnly: bool, now: int): (r: Option<string>)
    ensures r.Some? ==> |r.value| <= MaxPromptLength
  {
    if |msgs| == 0 then None
    else
      var chosen := Selected(msgs, recentOnly, now);
      if |chosen| == 0 then None else Some(Truncate(Join(Texts(chosen))))
  }

  /**
   * No request is made exactly when the transcript is empty, or when only recent messages are
   * wanted and none is newer than `now - 8000`.
   */
  lemma BuildPromptSkips(msgs: seq<DialogueMessage>, recentOnly: bool, now: int)
    ensures BuildPrompt(msgs, recentOnly, now) == None <==>
      |msgs| == 0 || (recentOnly && forall i :: 0 <= i < |msgs| ==> msgs[i].timestamp <= now - RecentWindowMs)
  {
  }

  /**
   * When a prompt is built it is the selected texts joined by single spaces (of length the sum
   * of the text lengths plus one per gap), cut to its trailing 500 characters when longer.
   */
  lemma BuildPromptText(msgs: seq<DialogueMessage>, recentOnly: bool, now: int)
    requires BuildPrompt(msgs, recentOnly, now).Some?
    ensures var joined := Join(Texts(Selected(msgs, recentOnly, now)));
      var p := BuildPrompt(msgs, recentOnly, now).value;
      |joined| == TotalLength(Texts(Selected(msgs, recentOnly, now))) + |Selected(msgs, recentOnly, now)| - 1 &&
      (|joined| <= MaxPromptLength ==> p == joined) &&
      (|joined| > MaxPromptLength ==> |p| == MaxPromptLength && p == joined[|joined| - MaxPromptLength..])
  {
    JoinLength(Texts(Selected(msgs, recentOnly, now)));
  }

  /** Without `recentOnly` every message is used, so appending one extends the full text. */
  lemma FullTextAfterAppend(msgs: seq<DialogueMessage>, m: DialogueMessage)
    requires |msgs| > 0
    ensures Join(Texts(msgs + [m])) == Join(Texts(msgs)) + " " + m.text
  {
    assert Texts(msgs + [m]) == Texts(msgs) + [m.text];
    JoinAppend(Texts(msgs), m.text);
  }

  /** A prompt built from messages whose texts are all non-empty is itself non-empty. */
  lemma BuildPromptNonEmpty(msgs: seq<DialogueMessage>, recentOnly: bool, now: int)
    requires forall i :: 0 <= i < |msgs| ==> msgs[i].text != ""
    requires BuildPrompt(msgs, recentOnly, now).Some?
    ensures BuildPrompt(msgs, recentOnly, now).value != ""
  {
    var chosen := Selected(msgs, recentOnly, now);
    JoinLength(Texts(chosen));
    if recentOnly {
      var idx := RecentIsOrderedSelection(msgs, now - RecentWindowMs);
      assert chosen[0] == msgs[idx[0]];
    }
    assert TotalLength(Texts(chosen)) >= |chosen[0].text| > 0;
  }

  /**
   * The two-message example: the first image at t = 8000 uses all text ("Hello"), and the
   * tick at t = 16000 only what was said after t = 8000.
   */
  lemma HelloGoblinsScenario()
    ensures BuildPrompt([DialogueMessage(Team, "Hello", 1000)], false, 8000) == Some("Hello")
    ensures BuildPrompt([DialogueMessage(Team, "Hello", 1000), DialogueMessage(DungeonMaster, "Goblins attack", 9000)],
      true, 16000) == Some("Goblins attack")
    ensures BuildPrompt([], false, 8000) == None
  {
  }
}
