/** The AI assistant panel (class `AIIntegration` in
  * static/js/ai_integration.js): the input-mode switch, text, voice and
  * image queries with their loading and response text, the recording flag,
  * and read-aloud. Requests to the backend are recorded in the order they
  * are made; a reply is delivered by a separate call, as it resumes the
  * query after its `await`. */
module AIPanel {
  import opened Wrappers
  import opened Seqs
  import opened ClassList
  import opened Text

  /** What an awaited `fetch(...)` followed by `response.json()` produced: the
    * fields of the parsed reply that the panel reads, or a thrown error. */
  datatype Reply =
    | Json(response: Option<string>, caption: Option<string>, error: Option<string>)
    | Failed(message: string)

  /** A file chosen in the image input. */
  datatype ImageFile = ImageFile(name: string)

  /** A request sent to the backend: `POST /generate` with
    * `{text, parameters: {max_new_tokens}}`, or `POST /api/analyze_image`
    * with the file as the `image` field. */
  datatype Request =
    | Generate(text: string, maxNewTokens: nat)
    | AnalyzeImage(image: ImageFile)

  /** The two texts of `#voice-recording-status`. */
  datatype RecordingStatus = Recording | ReadyToRecord

  const MaxNewTokens: nat := 300
  /** The text content of the loading placeholder. */
  const LoadingText: string := " Processing..."
  const RecognitionLanguage: string := "en-US"

  /** `a || b` for two optional strings: `a` unless it is absent or empty. */
  function OrElse(a: Option<string>, b: Option<string>): Option<string> {
    if a.Some? && a.value != "" then a else b
  }

  /** How `${content}` renders a value that may be undefined. */
  function Interpolated(content: Option<string>): string {
    content.GetOr("undefined")
  }

  /** The text a text query ends with: `data.response || data.error`, or
    * `Error: ` and the message of a thrown error. */
  function TextReplyContent(r: Reply): (shown: string)
    ensures r.Json? && r.response.Some? && r.response.value != "" ==> shown == r.response.value
    ensures r.Json? && r.response in {None, Some("")} ==> shown == r.error.GetOr("undefined")
  {
    match r
    case Json(response, _, error) => Interpolated(OrElse(response, error))
    case Failed(message) => "Error: " + message
  }

  /** The text an image query ends with: `data.caption || data.error`, or
    * `Error: ` and the message of a thrown error. */
  function ImageReplyContent(r: Reply): (shown: string)
    ensures r.Json? && r.caption.Some? && r.caption.value != "" ==> shown == r.caption.value
    ensures r.Json? && r.caption in {None, Some("")} ==> shown == r.error.GetOr("undefined")
  {
    match r
    case Json(_, caption, error) => Interpolated(OrElse(caption, error))
    case Failed(message) => "Error: " + message
  }

  /** A thrown error shows its message after "Error: " on both paths, and
    * each path reads only its own answer field. */
  lemma ReplyFallbacks(r: Reply, other: Option<string>)
    ensures r.Failed? ==> TextReplyContent(r) == ImageReplyContent(r) == "Error: " + r.message
    ensures r.Json? ==> TextReplyContent(r.(caption := other)) == TextReplyContent(r)
    ensures r.Json? ==> ImageReplyContent(r.(response := other)) == ImageReplyContent(r)
  {
  }

  /** A browser speech-recognition session. */
  class Recognition {
    var lang: string
    var listening: bool

    constructor ()
      ensures lang == "" && !listening
    {
      lang := "";
      listening := false;
    }

    method Start()
      modifies this`listening
      ensures listening
    {
      listening := true;
    }

    method Stop()
      modifies this`listening
      ensures !listening
    {
      listening := false;
    }
  }

  /** The panel's own fields (`isRecording`, `recognition`) and the page
    * state its methods read and write: the input containers with their mode
    * and `active` class, the query field, the transcript, the recording
    * status, the response text, the requests made and the utterances spoken. */
  class AIIntegration {
    var isRecording: bool
    var recognition: Recognition?
    const speechRecognitionAvailable: bool
    const speechSynthesisAvailable: bool
    const containerModes: seq<string>
    var containerActive: seq<bool>
    var query: string
    var transcript: string
    var status: RecordingStatus
    var responseText: string
    var requests: seq<Request>
    var spoken: seq<string>

    ghost predicate Valid()
      reads this
    {
      |containerActive| == |containerModes|
    }

    /** `new AIIntegration()` on a page whose containers, response text and
      * recording status are as given. */
    constructor (containerModes: seq<string>, containerActive: seq<bool>, responseText: string,
                 status: RecordingStatus, speechRecognitionAvailable: bool, speechSynthesisAvailable: bool)
      requires |containerActive| == |containerModes|
      ensures Valid() && !isRecording && recognition == null
      ensures this.containerModes == containerModes && this.containerActive == containerActive
      ensures this.responseText == responseText && this.status == status
      ensures this.speechRecognitionAvailable == speechRecognitionAvailable
      ensures this.speechSynthesisAvailable == speechSynthesisAvailable
      ensures query == "" && transcript == "" && requests == [] && spoken == []
    {
      isRecording := false;
      recognition := null;
      this.containerModes, this.containerActive := containerModes, containerActive;
      this.responseText, this.status := responseText, status;
      this.speechRecognitionAvailable := speechRecognitionAvailable;
      this.speechSynthesisAvailable := speechSynthesisAvailable;
      query, transcript := "", "";
      requests, spoken := [], [];
    }

    /** `switchMode(mode)`: every container loses `active`, then the first one
      * of that mode gains it, so exactly that container is active. With no
      * container of that mode the lookup yields null and the method stops
      * with none active (`found` is false). */
    method SwitchMode(mode: string) returns (found: bool)
      requires Valid()
      modifies this`containerActive
      ensures Valid()
      ensures var target := FirstIndexOf(containerModes, mode);
        && found == target.Some?
        && (found ==> OnlyActive(containerActive, target.value))
        && (!found ==> NoneActive(containerActive))
    {
      var i := 0;
      while i < |containerActive|
        invariant 0 <= i <= |containerActive| == |containerModes|
        invariant forall k :: 0 <= k < i ==> !containerActive[k]
      {
        containerActive := containerActive[i := false];
        i := i + 1;
      }
      var target := FirstIndexOf(containerModes, mode);
      found := target.Some?;
      if found {
        containerActive := containerActive[target.value := true];
      }
    }

    /** `processTextQuery()` up to its `await`: a blank query does nothing;
      * otherwise the loading placeholder is shown and one request with the
      * trimmed query is made. */
    method ProcessTextQuery()
      modifies this`responseText, this`requests
      ensures var question := Trim(query);
        if question == [] then
          responseText == old(responseText) && requests == old(requests)
        else
          responseText == LoadingText && requests == old(requests) + [Generate(question, MaxNewTokens)]
    {
      var question := Trim(query);
      if question == [] {
        return;
      }
      responseText := LoadingText;
      requests := requests + [Generate(question, MaxNewTokens)];
    }

    /** `processTextQuery()` after its `await`: the reply's text is shown. */
    method CompleteTextQuery(reply: Reply)
      modifies this`responseText
      ensures responseText == TextReplyContent(reply)
    {
      match reply
      case Json(response, _, error) =>
        responseText := Interpolated(OrElse(response, error));
      case Failed(message) =>
        responseText := "Error: " + message;
    }

    /** `processImageQuery()` up to its `await`: with no file chosen nothing
      * happens; otherwise the loading placeholder is shown and the first file
      * is sent. */
    method ProcessImageQuery(files: seq<ImageFile>)
      modifies this`responseText, this`requests
      ensures |files| == 0 ==> responseText == old(responseText) && requests == old(requests)
      ensures |files| > 0 ==> responseText == LoadingText && requests == old(requests) + [AnalyzeImage(files[0])]
    {
      if |files| == 0 {
        return;
      }
      responseText := LoadingText;
      requests := requests + [AnalyzeImage(files[0])];
    }

    /** `processImageQuery()` after its `await`: the reply's text is shown. */
    method CompleteImageQuery(reply: Reply)
      modifies this`responseText
      ensures responseText == ImageReplyContent(reply)
    {
      match reply
      case Json(_, caption, error) =>
        responseText := Interpolated(OrElse(caption, error));
      case Failed(message) =>
        responseText := "Error: " + message;
    }

    /** `startRecording()`: a new English session is created and started.
      * `isRecording` is not set here; it waits for the session's `onstart`.
      * A session still pending from an earlier start is replaced without
      * being stopped. Without a recognition constructor nothing changes. */
    method StartRecording()
      modifies this`recognition
      ensures speechRecognitionAvailable ==>
        fresh(recognition) && recognition.lang == RecognitionLanguage && recognition.listening
      ensures !speechRecognitionAvailable ==> recognition == old(recognition)
    {
      if !speechRecognitionAvailable {
        return;
      }
      var session := new Recognition();
      session.lang := RecognitionLanguage;
      session.Start();
      recognition := session;
    }

    /** The session's `onstart`: now the panel is recording. */
    method RecognitionStarted()
      modifies this`isRecording, this`status
      ensures isRecording && status == Recording
    {
      isRecording := true;
      status := Recording;
    }

    /** The session's `onresult`: the transcript fills the query field and is
      * submitted as a text query. */
    method RecognitionResult(heard: string)
      modifies this`transcript, this`query, this`responseText, this`requests
      ensures transcript == heard && query == heard
      ensures var question := Trim(heard);
        if question == [] then
          responseText == old(responseText) && requests == old(requests)
        else
          responseText == LoadingText && requests == old(requests) + [Generate(question, MaxNewTokens)]
    {
      transcript := heard;
      query := heard;
      ProcessTextQuery();
    }

    /** `stopRecording()`: stops the session if there is one, and always
      * leaves the panel not recording and ready. */
    method StopRecording()
      modifies this`isRecording, this`status, recognition
      ensures !isRecording && status == ReadyToRecord
      ensures recognition != null ==> !recognition.listening
      ensures recognition != null ==> recognition.lang == old(recognition.lang)
    {
      if recognition != null {
        recognition.Stop();
      }
      isRecording := false;
      status := ReadyToRecord;
    }

    /** `toggleVoiceRecording()`: stop when recording, start otherwise. */
    method ToggleVoiceRecording()
      modifies this`isRecording, this`status, this`recognition, recognition
      ensures old(isRecording) ==> !isRecording && status == ReadyToRecord && recognition == old(recognition)
      ensures old(isRecording) && recognition != null ==> !recognition.listening
      ensures old(isRecording) && recognition != null ==> recognition.lang == old(recognition.lang)
      ensures !old(isRecording) ==> !isRecording && status == old(status)
      ensures !old(isRecording) && speechRecognitionAvailable ==>
        fresh(recognition) && recognition.lang == RecognitionLanguage && recognition.listening
      ensures !old(isRecording) && !speechRecognitionAvailable ==> recognition == old(recognition)
    {
      if isRecording {
        StopRecording();
      } else {
        StartRecording();
      }
    }

    /** `readAloud()`: the response text is spoken only when it is non-empty
      * and speech synthesis exists. */
    method ReadAloud()
      modifies this`spoken
      ensures spoken == if responseText != "" && speechSynthesisAvailable
                        then old(spoken) + [responseText] else old(spoken)
    {
      if responseText != "" && speechSynthesisAvailable {
        spoken := spoken + [responseText];
      }
    }
  }
}
