/**
 * The chat panel's input handling (`components/ChatInterface.tsx`): the text
 * buffer and its submit guard, speech results merged into the buffer or sent
 * directly, the listening flag, and the panel's three modes.
 */
module ChatInterface {
  import opened Wrappers
  import opened Text
  import opened Types

  datatype ChatMode = TextMode | VoiceMode | VisionMode

  /** The send button is disabled while the trimmed input is empty or a reply is loading. */
  function SendDisabled(inputText: string, isLoading: bool): (r: bool)
    ensures r <==> AllSpace(inputText) || isLoading
  {
    TrimEmptyIffAllSpace(inputText);
    Trim(inputText) == "" || isLoading
  }

  /** A transcript joins the buffer: alone if the buffer is empty, else after one space. */
  function MergeTranscript(prev: string, transcript: string): (r: string)
    ensures prev == "" ==> r == transcript
    ensures prev != "" ==> |r| == |prev| + 1 + |transcript|
    ensures prev != "" ==> r[..|prev|] == prev && r[|prev|] == ' ' && r[|prev| + 1..] == transcript
  {
    if prev != "" then prev + " " + transcript else transcript
  }

  /** The voice view quotes the last message only when the model wrote it. */
  function VoiceQuote(messages: seq<Message>): (r: Option<string>)
    ensures r.Some? <==> |messages| > 0 && messages[|messages| - 1].role == Model
    ensures r.Some? ==> r.value == messages[|messages| - 1].text
  {
    if |messages| > 0 && messages[|messages| - 1].role == Model then Some(messages[|messages| - 1].text) else None
  }

  /** The panel's state; `sent` records the texts handed to the send callback. */
  class Chat {
    var mode: ChatMode
    var inputText: string
    var isListening: bool
    var sent: seq<string>
    const hasRecognizer: bool

    constructor (hasRecognizer: bool)
      ensures mode == TextMode && inputText == "" && !isListening && sent == []
      ensures this.hasRecognizer == hasRecognizer
    {
      this.hasRecognizer := hasRecognizer;
      mode := TextMode;
      inputText := "";
      isListening := false;
      sent := [];
    }

    /** Typing replaces the buffer; the input is disabled while a reply is loading. */
    method Edit(text: string, isLoading: bool)
      modifies this
      ensures !isLoading ==> inputText == text
      ensures isLoading ==> inputText == old(inputText)
      ensures mode == old(mode) && isListening == old(isListening) && sent == old(sent)
    {
      if !isLoading {
        inputText := text;
      }
    }

    /**
     * `handleSubmit`: when the send button is enabled, the buffer is sent as
     * typed (untrimmed) and cleared; otherwise nothing changes.
     */
    method Submit(isLoading: bool)
      modifies this
      ensures !SendDisabled(old(inputText), isLoading) ==> sent == old(sent) + [old(inputText)] && inputText == ""
      ensures SendDisabled(old(inputText), isLoading) ==> sent == old(sent) && inputText == old(inputText)
      ensures mode == old(mode) && isListening == old(isListening)
    {
      if Trim(inputText) != "" && !isLoading {
        sent := sent + [inputText];
        inputText := "";
      }
    }

    /**
     * `recognition.onresult`: in voice mode the transcript is sent and the buffer
     * is kept; otherwise it is merged into the buffer. Listening stops either way.
     */
    method SpeechResult(transcript: string)
      modifies this
      ensures mode == VoiceMode ==> sent == old(sent) + [transcript] && inputText == old(inputText)
      ensures mode != VoiceMode ==> sent == old(sent) && inputText == MergeTranscript(old(inputText), transcript)
      ensures !isListening && mode == old(mode)
    {
      if mode == VoiceMode {
        sent := sent + [transcript];
      } else {
        inputText := MergeTranscript(inputText, transcript);
      }
      isListening := false;
    }

    /** `recognition.onerror` and `recognition.onend`: listening stops. */
    method SpeechEnded()
      modifies this
      ensures !isListening && mode == old(mode) && inputText == old(inputText) && sent == old(sent)
    {
      isListening := false;
    }

    /** `toggleListening`: flips the flag when speech recognition exists, else does nothing. */
    method ToggleListening()
      modifies this
      ensures hasRecognizer ==> isListening == !old(isListening)
      ensures !hasRecognizer ==> isListening == old(isListening)
      ensures mode == old(mode) && inputText == old(inputText) && sent == old(sent)
    {
      if !hasRecognizer {
        return;
      }
      isListening := !isListening;
    }

    /** The mode buttons. */
    method SelectMode(m: ChatMode)
      modifies this
      ensures mode == m && inputText == old(inputText) && isListening == old(isListening) && sent == old(sent)
    {
      mode := m;
    }
  }
}
