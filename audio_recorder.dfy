/**
 * The recording button of components/audio-recorder.tsx: its `m:ss` timer
 * text, the dispatch of a click, the routing of messages from the
 * transcription server, the chunk list filled by the media recorder, the
 * stop signal sent when the recorder stops, and the recording and
 * processing flags.
 *
 * Outside the model: the MediaRecorder, getUserMedia and the permission
 * query (whether access is granted, and whether `stop` throws, are
 * parameters), the WebSocket object (whether it is open is a parameter, and
 * what it sends is an outbox of frames), JSON text (a parsed message is
 * given as the fields it has), toasts and the parent's callbacks (routing
 * returns the effect it would have).
 */
module AudioRecorder {
  import opened Wrappers
  import opened Text
  import SessionStore

  type Bytes = SessionStore.Bytes

  /** `formatTime(seconds)`: whole minutes, unpadded, then the seconds within the minute padded to two digits. */
  function FormatSeconds(seconds: nat): string {
    MinSec(seconds / 60, seconds % 60)
  }

  function MinSec(m: nat, s: nat): string {
    NatToString(m) + (":" + Pad2(s))
  }

  /** The timer text is read back to its minutes and seconds, and the seconds field is always two characters. */
  lemma FormatSecondsRoundTrip(seconds: nat)
    ensures ReadClockFields(FormatSeconds(seconds)) == Some([seconds / 60, seconds % 60])
    ensures |FormatSeconds(seconds)| == |NatToString(seconds / 60)| + 3
  {
    MinSecRoundTrip(seconds / 60, seconds % 60);
  }

  lemma MinSecRoundTrip(m: nat, s: nat)
    requires s < 60
    ensures ReadClockFields(MinSec(m, s)) == Some([m, s])
    ensures |MinSec(m, s)| == |NatToString(m)| + 3
  {
    var fm, fs := NatToString(m), Pad2(s);
    NatToStringValue(m);
    ClockFieldsOne(fs);
    ClockFieldsCons(fm, fs, [s]);
    assert [m] + [s] == [m, s];
  }

  /** Different second counts never show the same text. */
  lemma FormatSecondsInjective(a: nat, b: nat)
    ensures FormatSeconds(a) == FormatSeconds(b) <==> a == b
  {
    if FormatSeconds(a) == FormatSeconds(b) {
      FormatSecondsRoundTrip(a);
      FormatSecondsRoundTrip(b);
      assert a == 60 * (a / 60) + a % 60;
      assert b == 60 * (b / 60) + b % 60;
    }
  }

  /** What a click on the record button starts. */
  datatype ClickAction = ClickStop | ClickStart | ClickRequest

  /** `handleRecordClick`; `permission` is `hasMicrophonePermission`, None while unknown. */
  function RecordClick(isRecording: bool, permission: Option<bool>): (a: ClickAction)
    ensures a == ClickStop <==> isRecording
    ensures a == ClickStart <==> !isRecording && permission == Some(true)
    ensures a == ClickRequest <==> !isRecording && permission != Some(true)
  {
    if isRecording then ClickStop
    else if permission == Some(true) then ClickStart
    else ClickRequest
  }

  /** What `JSON.parse(event.data)` gives on the client: a thrown error, or the fields the object has. */
  datatype ClientView =
    | Unparsable
    | Parsed(typeField: Option<string>, text: Option<string>, isFinal: Option<bool>, message: Option<string>)

  /** The effect of one server message: the transcription callback, an error toast, or nothing. */
  datatype Effect = Deliver(text: Option<string>, isFinal: Option<bool>) | ShowError(description: string) | Ignore

  const DefaultErrorText: string := "An error occurred during transcription."

  /** `data.message || default`: an absent or empty message gives the default text. */
  function ErrorText(message: Option<string>): string {
    if message.Some? && message.value != "" then message.value else DefaultErrorText
  }

  /** `ws.onmessage`; `hasCallback` is whether `onTranscriptionComplete` was given. */
  function Route(v: ClientView, hasCallback: bool): (e: Effect)
    ensures e.Deliver? <==> v.Parsed? && v.typeField == Some("transcription") && hasCallback
    ensures e.Deliver? ==> e == Deliver(v.text, v.isFinal)
    ensures e.ShowError? <==> v.Parsed? && v.typeField == Some("error")
    ensures e.ShowError? ==> e.description != "" && e.description == ErrorText(v.message)
  {
    match v
    case Unparsable => Ignore
    case Parsed(t, text, isFinal, message) =>
      if t == Some("transcription") then (if hasCallback then Deliver(text, isFinal) else Ignore)
      else if t == Some("error") then ShowError(ErrorText(message))
      else Ignore
  }

  /** What the client reads from a message the server sends with `JSON.stringify`. */
  function Received(o: SessionStore.Outbound): ClientView {
    match o
    case Transcription(text, isFinal) => Parsed(Some("transcription"), Some(text), Some(isFinal), None)
    case Error(message) => Parsed(Some("error"), None, None, Some(message))
  }

  /**
   * Every message the server sends reaches the client as meant: a
   * transcription goes to the callback with its text and finality, and each
   * of the server's error messages is shown as it was sent.
   */
  lemma ServerMessagesRouted(o: SessionStore.Outbound)
    ensures o.Transcription? ==> Route(Received(o), true) == Deliver(Some(o.text), Some(o.isFinal))
    ensures o.Transcription? ==> Route(Received(o), false) == Ignore
    ensures o == SessionStore.Error(SessionStore.ProcessError) || o == SessionStore.Error(SessionStore.TranscribeError)
            ==> Route(Received(o), true) == ShowError(o.message)
  {
  }

  /** The chunks `ondataavailable` keeps: the non-empty ones, in arrival order. */
  function NonEmpty(blobs: seq<Bytes>): seq<Bytes>
    decreases |blobs|
  {
    if |blobs| == 0 then []
    else NonEmpty(blobs[..|blobs| - 1]) + (if |blobs[|blobs| - 1]| > 0 then [blobs[|blobs| - 1]] else [])
  }

  /** Filtering is piecewise, keeps only non-empty chunks, and drops nothing from a list without empty ones. */
  lemma {:induction false} NonEmptyAppend(a: seq<Bytes>, b: seq<Bytes>)
    ensures NonEmpty(a + b) == NonEmpty(a) + NonEmpty(b)
    decreases |b|
  {
    if |b| == 0 {
      assert a + b == a;
    } else {
      assert (a + b)[..|a + b| - 1] == a + b[..|b| - 1];
      NonEmptyAppend(a, b[..|b| - 1]);
    }
  }

  lemma {:induction false} NonEmptyShape(blobs: seq<Bytes>)
    ensures var r := NonEmpty(blobs);
            && |r| <= |blobs|
            && (forall i :: 0 <= i < |r| ==> |r[i]| > 0)
            && ((forall i :: 0 <= i < |blobs| ==> |blobs[i]| > 0) ==> r == blobs)
    decreases |blobs|
  {
    if |blobs| > 0 {
      var init := blobs[..|blobs| - 1];
      NonEmptyShape(init);
      assert blobs == init + [blobs[|blobs| - 1]];
      assert forall i :: 0 <= i < |init| ==> init[i] == blobs[i];
    }
  }

  /** `JSON.stringify({ type: "stop" })`. */
  const StopMessage: string := "{\"type\":\"" + SessionStore.StopType + "\"}"

  /** The UTF-8 bytes of an ASCII string. */
  function AsciiBytes(s: string): (b: Bytes)
    requires forall i :: 0 <= i < |s| ==> s[i] as int < 128
    ensures |b| == |s| && forall i :: 0 <= i < |s| ==> b[i] as int == s[i] as int
  {
    seq(|s|, i requires 0 <= i < |s| => (s[i] as int) as SessionStore.Byte)
  }

  /**
   * The stop signal is the frame the server stops on: it begins with the
   * byte of `{` and, parsed, carries the server's stop type.
   */
  lemma StopMessageIsStopSignal()
    ensures forall i :: 0 <= i < |StopMessage| ==> StopMessage[i] as int < 128
    ensures SessionStore.LooksLikeJson(AsciiBytes(StopMessage))
    ensures SessionStore.Classify(AsciiBytes(StopMessage), SessionStore.Object(Some(SessionStore.StopType)))
            == SessionStore.StopSignal
  {
  }

  /** A frame the client puts on the socket. */
  datatype ClientFrame = Binary(data: Bytes) | Text(text: string)

  /** The recorder's state; `outbox` is every frame sent on the socket, in order. */
  class Recorder {
    var isRecording: bool
    var isProcessing: bool
    var permission: Option<bool>
    var hasRecorder: bool
    var chunks: seq<Bytes>
    var recordingTime: nat
    var outbox: seq<ClientFrame>

    constructor ()
      ensures !isRecording && !isProcessing && permission == None && !hasRecorder
      ensures chunks == [] && recordingTime == 0 && outbox == []
    {
      isRecording, isProcessing := false, false;
      permission := None;
      hasRecorder := false;
      chunks, recordingTime, outbox := [], 0, [];
    }

    /** `startRecording`: when the microphone is granted, a new recorder with an empty chunk list. */
    method StartRecording(granted: bool)
      modifies this
      ensures granted ==> hasRecorder && chunks == [] && isRecording
      ensures !granted ==> unchanged(this)
      ensures isProcessing == old(isProcessing) && permission == old(permission)
      ensures recordingTime == old(recordingTime) && outbox == old(outbox)
    {
      if !granted {
        return;
      }
      hasRecorder := true;
      chunks := [];
      isRecording := true;
    }

    /** `requestMicrophonePermission`: records the answer and, when granted, starts recording (which asks again). */
    method RequestPermission(granted: bool, startGranted: bool)
      modifies this
      ensures permission == Some(granted)
      ensures granted && startGranted ==> hasRecorder && chunks == [] && isRecording
      ensures !(granted && startGranted) ==> isRecording == old(isRecording) && chunks == old(chunks) && hasRecorder == old(hasRecorder)
      ensures isProcessing == old(isProcessing) && recordingTime == old(recordingTime) && outbox == old(outbox)
    {
      if granted {
        permission := Some(true);
        StartRecording(startGranted);
      } else {
        permission := Some(false);
      }
    }

    /** `ondataavailable`: an empty chunk is dropped; a kept chunk is also sent when the socket is open. */
    method OnDataAvailable(data: Bytes, open: bool)
      modifies this
      ensures chunks == old(chunks) + NonEmpty([data])
      ensures outbox == old(outbox) + (if open && |data| > 0 then [Binary(data)] else [])
      ensures isRecording == old(isRecording) && isProcessing == old(isProcessing) && permission == old(permission)
      ensures hasRecorder == old(hasRecorder) && recordingTime == old(recordingTime)
    {
      assert [data][..0] == [];
      if |data| > 0 {
        chunks := chunks + [data];
        if open {
          outbox := outbox + [Binary(data)];
        }
      }
    }

    /** `onstop`: the stop signal, only on an open socket. */
    method OnRecorderStop(open: bool)
      modifies this
      ensures outbox == old(outbox) + (if open then [Text(StopMessage)] else [])
      ensures isRecording == old(isRecording) && isProcessing == old(isProcessing) && permission == old(permission)
      ensures hasRecorder == old(hasRecorder) && chunks == old(chunks) && recordingTime == old(recordingTime)
    {
      if open {
        outbox := outbox + [Text(StopMessage)];
      }
    }

    /**
     * `stopRecording`: the `finally` clears the processing flag on every
     * path, the early return without a recorder included; recording ends
     * unless the recorder's `stop` throws.
     */
    method StopRecording(throws: bool)
      modifies this
      ensures !isProcessing
      ensures isRecording == (old(isRecording) && (!hasRecorder || throws))
      ensures permission == old(permission) && hasRecorder == old(hasRecorder) && chunks == old(chunks)
      ensures recordingTime == old(recordingTime) && outbox == old(outbox)
    {
      if hasRecorder && !throws {
        isRecording := false;
        isProcessing := true;
      }
      isProcessing := false;
    }

    /** One tick of the one-second interval, which runs while recording. */
    method Tick()
      modifies this
      ensures recordingTime == if old(isRecording) then old(recordingTime) + 1 else old(recordingTime)
      ensures isRecording == old(isRecording) && isProcessing == old(isProcessing) && permission == old(permission)
      ensures hasRecorder == old(hasRecorder) && chunks == old(chunks) && outbox == old(outbox)
    {
      if isRecording {
        recordingTime := recordingTime + 1;
      }
    }

    /** `handleRecordClick`, with the outcomes of the browser calls it may reach. */
    method HandleRecordClick(granted: bool, startGranted: bool, throws: bool) returns (action: ClickAction)
      modifies this
      ensures action == RecordClick(old(isRecording), old(permission))
      ensures action == ClickStop ==> !isProcessing && isRecording == (!old(hasRecorder) || throws)
      ensures action == ClickStop ==> permission == old(permission) && hasRecorder == old(hasRecorder) && chunks == old(chunks)
      ensures action == ClickStart ==> (granted ==> isRecording && chunks == [] && hasRecorder)
      ensures action == ClickStart && !granted
              ==> chunks == old(chunks) && hasRecorder == old(hasRecorder) && isRecording == old(isRecording)
      ensures action == ClickStart ==> permission == old(permission)
      ensures action == ClickRequest ==> permission == Some(granted)
      ensures action == ClickRequest && granted && startGranted ==> hasRecorder && chunks == [] && isRecording
      ensures action == ClickRequest && !(granted && startGranted)
              ==> isRecording == old(isRecording) && chunks == old(chunks) && hasRecorder == old(hasRecorder)
      ensures action != ClickStop ==> isProcessing == old(isProcessing)
      ensures recordingTime == old(recordingTime) && outbox == old(outbox)
    {
      action := RecordClick(isRecording, permission);
      match action {
        case ClickStop => StopRecording(throws);
        case ClickStart => StartRecording(granted);
        case ClickRequest => RequestPermission(granted, startGranted);
      }
    }
  }
}
