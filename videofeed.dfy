/**
 * The session state of the `VideoFeed` component: one object whose fields are
 * the component's state cells, and one method per event handler or button.
 * Each text-changing method also runs the words-per-minute effect, which
 * React runs after a render only when `decodedText` actually changed.
 */
module VideoFeed {
  import opened Base
  import Transcript
  import Telemetry
  import JsText
  import opened Chat

  class Session {
    var blink: Option<string>
    var sequence: string
    var decodedText: string
    var chatHistory: seq<Message>
    var confidence: Option<int>
    var aiLoading: bool
    var blinkCount: nat
    var wpm: Telemetry.WpmReading
    var startTime: Option<int>
    /** Requests to `/ask_ai` issued and not yet completed. */
    ghost var inFlight: nat

    /**
     * The value of `startTime` that the socket handlers see. They are
     * registered once, by an effect with no dependencies, so they keep the
     * value of the first render, `null`, for the whole session.
     */
    const handlerStartTime: Option<int> := None

    constructor ()
      ensures blink == None && sequence == "" && decodedText == "" && chatHistory == []
      ensures confidence == None && !aiLoading && blinkCount == 0
      ensures wpm == Telemetry.Initial && startTime == None && inFlight == 0
    {
      blink, sequence, decodedText, chatHistory := None, "", "", [];
      confidence, aiLoading, blinkCount := None, false, 0;
      wpm, startTime := Telemetry.Initial, None;
      inFlight := 0;
    }

    /** Replaces the transcript and, if it changed, runs the words-per-minute effect at time `now`. */
    method SetDecodedText(text: string, now: int)
      modifies this
      ensures decodedText == text
      ensures wpm == if text != old(decodedText) then Telemetry.RecomputeWpm(old(wpm), startTime, text, now) else old(wpm)
      ensures blink == old(blink) && sequence == old(sequence) && chatHistory == old(chatHistory)
      ensures confidence == old(confidence) && aiLoading == old(aiLoading) && blinkCount == old(blinkCount)
      ensures startTime == old(startTime) && inFlight == old(inFlight)
    {
      var changed := text != decodedText;
      decodedText := text;
      if changed {
        wpm := Telemetry.RecomputeWpm(wpm, startTime, decodedText, now);
      }
    }

    /**
     * Both `blink_event` handlers, run one after the other: the first sets the
     * blink type, the sequence and the confidence, the second sets the same
     * type and sequence, counts the blink and (re)starts the timer.
     */
    method OnBlinkEvent(kind: Option<string>, seqInProgress: Option<string>, conf: Option<real>, now: int)
      modifies this
      ensures blinkCount == old(blinkCount) + 1
      ensures confidence == Telemetry.ConfidencePercent(conf)
      ensures sequence == OrEmpty(seqInProgress) && blink == kind
      ensures startTime == Some(now)
      ensures now != 0 ==> Telemetry.StartTimeSet(startTime)
      ensures decodedText == old(decodedText) && chatHistory == old(chatHistory) && aiLoading == old(aiLoading)
      ensures wpm == old(wpm) && inFlight == old(inFlight)
    {
      // first handler
      blink := kind;
      sequence := OrEmpty(seqInProgress);
      if conf.Some? {
        confidence := Some(Telemetry.Round(conf.value * 100.0));
      } else {
        confidence := None;
      }
      // second handler
      blink := kind;
      sequence := OrEmpty(seqInProgress);
      blinkCount := blinkCount + 1;
      if !Telemetry.StartTimeSet(handlerStartTime) {
        startTime := Some(now);
      }
    }

    /** The `letter_event` handler. */
    method OnLetterEvent(letter: Option<string>, now: int)
      modifies this
      ensures decodedText == Transcript.LetterEvent(old(decodedText), letter)
      ensures wpm == if decodedText != old(decodedText) then Telemetry.RecomputeWpm(old(wpm), startTime, decodedText, now) else old(wpm)
      ensures blink == old(blink) && sequence == old(sequence) && chatHistory == old(chatHistory)
      ensures confidence == old(confidence) && aiLoading == old(aiLoading) && blinkCount == old(blinkCount)
      ensures startTime == old(startTime) && inFlight == old(inFlight)
    {
      if letter == Some(Transcript.BackspaceToken) {
        SetDecodedText(Transcript.Backspace(decodedText), now);
      } else if letter == Some(Transcript.SpaceToken) {
        SetDecodedText(Transcript.AppendSpace(decodedText), now);
      } else {
        SetDecodedText(Transcript.AppendLetter(decodedText, letter), now);
      }
    }

    /** The `ai_reply` handler: a truthy reply is prepended; loading state and transcript are untouched. */
    method OnAiReply(reply: Option<string>)
      modifies this
      ensures chatHistory == PushReply(old(chatHistory), reply)
      ensures blink == old(blink) && sequence == old(sequence) && decodedText == old(decodedText)
      ensures confidence == old(confidence) && aiLoading == old(aiLoading) && blinkCount == old(blinkCount)
      ensures wpm == old(wpm) && startTime == old(startTime) && inFlight == old(inFlight)
    {
      if TruthyString(reply) {
        chatHistory := Prepend(chatHistory, Message(AiSender, reply.value));
      }
    }

    /** The Space button. */
    method HandleSpace(now: int)
      modifies this
      ensures decodedText == Transcript.AppendSpace(old(decodedText))
      ensures wpm == Telemetry.RecomputeWpm(old(wpm), startTime, decodedText, now)
      ensures blink == old(blink) && sequence == old(sequence) && chatHistory == old(chatHistory)
      ensures confidence == old(confidence) && aiLoading == old(aiLoading) && blinkCount == old(blinkCount)
      ensures startTime == old(startTime) && inFlight == old(inFlight)
    {
      SetDecodedText(Transcript.AppendSpace(decodedText), now);
    }

    /** The Backspace button. */
    method HandleBackspace(now: int)
      modifies this
      ensures decodedText == Transcript.Backspace(old(decodedText))
      ensures wpm == if old(decodedText) != "" then Telemetry.RecomputeWpm(old(wpm), startTime, decodedText, now) else old(wpm)
      ensures blink == old(blink) && sequence == old(sequence) && chatHistory == old(chatHistory)
      ensures confidence == old(confidence) && aiLoading == old(aiLoading) && blinkCount == old(blinkCount)
      ensures startTime == old(startTime) && inFlight == old(inFlight)
    {
      SetDecodedText(Transcript.Backspace(decodedText), now);
    }

    /** The Clear button; the emptied text never triggers a recomputation. */
    method HandleClear(now: int)
      modifies this
      ensures decodedText == ""
      ensures wpm == old(wpm)
      ensures blink == old(blink) && sequence == old(sequence) && chatHistory == old(chatHistory)
      ensures confidence == old(confidence) && aiLoading == old(aiLoading) && blinkCount == old(blinkCount)
      ensures startTime == old(startTime) && inFlight == old(inFlight)
    {
      SetDecodedText(Transcript.Clear(decodedText), now);
    }

    /**
     * The synchronous part of `handleSendToAI`, up to the request. Blank text
     * does nothing; otherwise the untrimmed text is echoed as the user's
     * message, the transcript is cleared, loading starts, and the text is
     * returned as the request's message.
     */
    method BeginSend(now: int) returns (request: Option<string>)
      modifies this
      ensures JsText.AllSpace(old(decodedText)) ==>
        request == None && decodedText == old(decodedText) && chatHistory == old(chatHistory) &&
        aiLoading == old(aiLoading) && inFlight == old(inFlight)
      ensures !JsText.AllSpace(old(decodedText)) ==>
        request == Some(old(decodedText)) && aiLoading && decodedText == "" &&
        chatHistory == Prepend(old(chatHistory), Message(UserSender, old(decodedText))) &&
        inFlight == old(inFlight) + 1
      ensures blink == old(blink) && sequence == old(sequence) && confidence == old(confidence)
      ensures blinkCount == old(blinkCount) && wpm == old(wpm) && startTime == old(startTime)
    {
      var blank := JsText.IsBlank(decodedText);
      if blank {
        request := None;
      } else {
        aiLoading := true;
        var userMsg := decodedText;
        chatHistory := Prepend(chatHistory, Message(UserSender, userMsg));
        SetDecodedText("", now);
        inFlight := inFlight + 1;
        request := Some(userMsg);
      }
    }

    /** The rest of `handleSendToAI`, once the request has ended: one assistant entry, and loading stops on every path. */
    method CompleteSend(outcome: Outcome)
      requires inFlight > 0
      modifies this
      ensures chatHistory == Prepend(old(chatHistory), Message(AiSender, ReplyText(outcome)))
      ensures !aiLoading && inFlight == old(inFlight) - 1
      ensures blink == old(blink) && sequence == old(sequence) && decodedText == old(decodedText)
      ensures confidence == old(confidence) && blinkCount == old(blinkCount)
      ensures wpm == old(wpm) && startTime == old(startTime)
    {
      match outcome {
        case Response(reply) =>
          if TruthyString(reply) {
            chatHistory := Prepend(chatHistory, Message(AiSender, reply.value));
          } else {
            chatHistory := Prepend(chatHistory, Message(AiSender, NoReplyText));
          }
        case Failure =>
          chatHistory := Prepend(chatHistory, Message(AiSender, ErrorText));
      }
      aiLoading := false;
      inFlight := inFlight - 1;
    }
  }

  /** Sending "HELLO" and receiving "HI THERE". */
  method SendScenario()
  {
    var s := new Session();
    s.OnLetterEvent(Some("HELLO"), 1000);
    assert s.decodedText == "HELLO";
    assert !JsText.IsSpace("HELLO"[0]);
    var request := s.BeginSend(2000);
    assert request == Some("HELLO");
    assert s.aiLoading && s.decodedText == "";
    s.CompleteSend(Response(Some("HI THERE")));
    assert s.chatHistory == [Message(AiSender, "HI THERE"), Message(UserSender, "HELLO")];
    assert !s.aiLoading;
  }

  /** Sending "HI" when the request times out. */
  method TimeoutScenario()
  {
    var s := new Session();
    s.OnLetterEvent(Some("H"), 1000);
    assert s.decodedText == "H";
    s.OnLetterEvent(Some("I"), 1100);
    assert s.decodedText == "HI";
    assert !JsText.IsSpace("HI"[0]);
    var request := s.BeginSend(2000);
    assert request == Some("HI");
    s.CompleteSend(Failure);
    assert s.chatHistory == [Message(AiSender, ErrorText), Message(UserSender, "HI")];
    assert !s.aiLoading && s.decodedText == "";
  }

  /** Sending blank text does nothing. */
  method BlankSendScenario()
  {
    var s := new Session();
    s.HandleSpace(1000);
    var request := s.BeginSend(2000);
    assert request == None && s.chatHistory == [] && s.decodedText == " " && !s.aiLoading;
  }

  /** Two blinks: the count rises by one each, confidence is redefined by every event, and the timer restarts at the latest blink. */
  method BlinkScenario()
  {
    var s := new Session();
    s.OnBlinkEvent(Some("DOT"), Some("."), Some(0.873), 1000);
    assert s.blinkCount == 1 && s.confidence == Some(87) && s.startTime == Some(1000);
    s.OnBlinkEvent(Some("DASH"), None, None, 5000);
    assert s.blinkCount == 2 && s.confidence == None && s.sequence == "";
    assert s.startTime == Some(5000);
  }
}
