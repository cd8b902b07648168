/**
 * The compose bar: trim-and-send, Enter handling, the microphone toggle and
 * the space-joined appending of speech transcripts, over its own instance of
 * the speech hook.
 */
module ChatInput {
  import opened Basics
  import opened Text
  import Speech

  /** What `handleSend` passes to `onSend`: the trimmed text, unless it is blank. */
  function Outgoing(message: string): (r: Option<string>)
    ensures r.None? <==> AllSpace(message)
    ensures r.Some? ==> r.value != "" && !IsSpace(r.value[0]) && !IsSpace(r.value[|r.value| - 1])
    ensures r.Some? ==> LeadingSpace(message) + |r.value| <= |message|
    ensures r.Some? ==> r.value == message[LeadingSpace(message)..LeadingSpace(message) + |r.value|]
    ensures r.Some? ==> forall i :: 0 <= i < |message| && !(LeadingSpace(message) <= i < LeadingSpace(message) + |r.value|) ==>
                          IsSpace(message[i])
  {
    var trimmed := Trim(message);
    if trimmed != "" then Some(trimmed) else None
  }

  /** `"  hello  "` is sent as `"hello"`. */
  lemma SendsTrimmedHello()
    ensures Outgoing("  hello  ") == Some("hello")
  {
    var s := "  hello  ";
    assert s[1..] == " hello  " && s[1..][1..] == "hello  ";
    assert LeadingSpace("hello  ") == 0;
    assert LeadingSpace(s) == 2;
    assert "hello  "[..6] == "hello " && "hello "[..5] == "hello";
    assert TrailingSpace("hello") == 0;
    assert TrailingSpace("hello  ") == 2;
    assert s[2..] == "hello  ";
    assert Trim(s) == "hello  "[..5] == "hello";
  }

  /** The speech callback: `prev + (prev ? ' ' : '') + text`. */
  function AppendTranscript(prev: string, text: string): (r: string)
    ensures |r| == |prev| + |text| + (if prev == "" then 0 else 1)
    ensures prev <= r
    ensures r[|r| - |text|..] == text
    ensures prev != "" ==> r[|prev|] == ' '
  {
    prev + (if prev != "" then " " else "") + text
  }

  /** `key === 'Enter' && !shiftKey`. */
  predicate SubmitsOnKey(key: string, shiftKey: bool) {
    key == "Enter" && !shiftKey
  }

  /** The send button's `disabled`. */
  predicate SendDisabled(disabled: bool, message: string) {
    disabled || Trim(message) == ""
  }

  /** The text field's `disabled`. */
  predicate InputDisabled(disabled: bool, isListening: bool) {
    disabled || isListening
  }

  /** The text field is disabled whenever a listening session runs, and otherwise only by the prop. */
  lemma ListeningDisablesInput(disabled: bool, isListening: bool)
    ensures isListening ==> InputDisabled(disabled, isListening)
    ensures !disabled ==> (InputDisabled(disabled, isListening) <==> isListening)
  {
  }

  /** The send button is enabled exactly when a click would emit a message. */
  lemma SendEnabledIffEmits(disabled: bool, message: string)
    ensures !SendDisabled(disabled, message) <==> !disabled && Outgoing(message).Some?
  {
  }

  class ComposeBar {
    /** The `disabled` prop. */
    const disabled: bool
    /** The hook instance this compose bar calls `useSpeech` for. */
    const speech: Speech.SpeechHook
    /** The `message` state: the text field's content. */
    var message: string
    /** Every argument passed to `onSend`, in order. */
    var sent: seq<string>

    constructor (disabled: bool, speech: Speech.SpeechHook)
      ensures this.disabled == disabled && this.speech == speech
      ensures message == "" && sent == []
    {
      this.disabled := disabled;
      this.speech := speech;
      message := "";
      sent := [];
    }

    /** The text field's `onChange`. */
    method Edit(value: string)
      requires !InputDisabled(disabled, speech.isListening)
      modifies this`message
      ensures message == value
    {
      message := value;
    }

    /**
     * `handleSend`: emit the trimmed text once and clear the field; blank
     * text emits nothing and leaves the field as it is.
     */
    method HandleSend()
      modifies this`message, this`sent
      ensures Outgoing(old(message)).Some? ==>
                sent == old(sent) + [Outgoing(old(message)).value] && message == ""
      ensures Outgoing(old(message)).None? ==> sent == old(sent) && message == old(message)
    {
      var trimmed := Trim(message);
      if trimmed != "" {
        sent := sent + [trimmed];
        message := "";
      }
    }

    /** `handleKeyPress`: Enter without Shift sends; every other key does nothing here. */
    method HandleKeyPress(key: string, shiftKey: bool)
      requires !InputDisabled(disabled, speech.isListening)
      modifies this`message, this`sent
      ensures SubmitsOnKey(key, shiftKey) && Outgoing(old(message)).Some? ==>
                sent == old(sent) + [Outgoing(old(message)).value] && message == ""
      ensures !SubmitsOnKey(key, shiftKey) || Outgoing(old(message)).None? ==>
                sent == old(sent) && message == old(message)
    {
      if key == "Enter" && !shiftKey {
        HandleSend();
      }
    }

    /** `handleMicClick`: stop while listening, otherwise start a session with an error callback. */
    method HandleMicClick(language: string)
      requires !disabled && speech.Valid()
      modifies speech
      ensures speech.Valid()
      ensures old(speech.isListening) ==>
                !speech.isListening && speech.recognizer == Some(old(speech.recognizer).value.(stopped := true))
      ensures !old(speech.isListening) && speech.recognitionSupported ==>
                speech.recognizer == Some(Speech.Recognizer(Speech.SpeechLang(language), false, 1, false, true, false))
      ensures !old(speech.isListening) ==> speech.isListening == old(speech.isListening)
      ensures !old(speech.isListening) && !speech.recognitionSupported ==> speech.recognizer == old(speech.recognizer)
      ensures speech.queue == old(speech.queue) && speech.isSpeaking == old(speech.isSpeaking)
    {
      if speech.isListening {
        speech.StopListening();
      } else {
        // The error callback only logs, so the notice is dropped.
        var _ := speech.StartListening(language, true);
      }
    }

    /** A recognition result of the session this bar started: append it to the field. */
    method SpeechResult(transcript: string)
      requires speech.Valid() && speech.recognizer.Some?
      modifies this`message, speech`isListening
      ensures speech.Valid()
      ensures message == AppendTranscript(old(message), transcript)
      ensures !speech.isListening
    {
      var notice := speech.RecognitionResult(transcript);
      message := AppendTranscript(message, notice.transcript);
    }
  }
}
