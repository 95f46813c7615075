/**
 * The streaming transcription server of server/websocket.ts: two maps keyed
 * by client id, one holding each connection's audio chunks in arrival order
 * and one holding its running partial transcript, updated by the connection,
 * message and close handlers.
 *
 * What one message does to one connection is stated once, as functions on
 * that connection's `Session` (`Receive`, built from `StopFrame` and
 * `AudioFrame`). `Handle` lifts it to the two maps (`Store`), and the class
 * `Server` holds the maps as fields and is proved to update them exactly as
 * `Opened`, `Handle` and `Closed` say. The lemmas at the end are about runs
 * of messages on one connection.
 *
 * Outside the model: the speech-to-text call is a parameter (its result),
 * JSON.parse of a frame is a parameter (its outcome), `ws.send` becomes the
 * returned list of outbound messages, and each message is handled as one
 * atomic step.
 */
module SessionStore {
  import opened Wrappers

  /** One octet of a frame. */
  newtype Byte = b: int | 0 <= b < 256
  type Bytes = seq<Byte>
  type ClientId = string

  /** A partial transcription is requested every `Window` chunks, over the last `Window` chunks. */
  const Window: nat := 5
  /** The byte of `{`: a frame starting with it is tried as a JSON control message. */
  const OpenBrace: Byte := 0x7B
  /** The `type` of the control message that ends a recording. */
  const StopType: string := "stop"
  const ProcessError: string := "Failed to process audio"
  const TranscribeError: string := "Failed to transcribe audio"

  /** What the speech-to-text provider answered for one request. */
  datatype ProviderResult = Transcribed(text: string) | ProviderFailed

  /** What `JSON.parse(data.toString())` gives: a thrown error, or an object with its `type` field (None when absent or not a string). */
  datatype JsonView = Malformed | Object(typeField: Option<string>)

  /** A message the server sends back on the connection. */
  datatype Outbound = Transcription(text: string, isFinal: bool) | Error(message: string)

  /** A call to the provider and the audio it carries. */
  datatype Request = PartialRequest(audio: Bytes) | FinalRequest(audio: Bytes)

  datatype Kind = StopSignal | Audio | Unparsable

  /** One connection's entries in the two maps. */
  datatype Session = Session(chunks: seq<Bytes>, transcript: string)

  /** The effect of one message on one connection: its entries afterwards (None: removed), the provider call made, the messages sent. */
  datatype Outcome = Outcome(session: Option<Session>, request: Option<Request>, sent: seq<Outbound>)

  /** `data.toString().startsWith("{")`: UTF-8 decoding yields `{` first exactly when the first byte is 0x7B. */
  predicate LooksLikeJson(data: Bytes) {
    |data| > 0 && data[0] == OpenBrace
  }

  /**
   * How a frame is treated: tried as JSON only when it starts with `{`; a
   * parse error is reported, a `type` of "stop" is the stop signal, and
   * every other frame, including JSON with another `type`, is audio.
   */
  function Classify(data: Bytes, json: JsonView): Kind {
    if !LooksLikeJson(data) then Audio
    else
      match json
      case Malformed => Unparsable
      case Object(t) => if t == Some(StopType) then StopSignal else Audio
  }

  /** Only a `{`-leading frame can be a control message: a stop exactly when it parses with `type` "stop", an error exactly when it does not parse. */
  lemma ClassifyCases(data: Bytes, json: JsonView)
    ensures !LooksLikeJson(data) ==> Classify(data, json) == Audio
    ensures Classify(data, json) == StopSignal <==> LooksLikeJson(data) && json == Object(Some(StopType))
    ensures Classify(data, json) == Unparsable <==> LooksLikeJson(data) && json == Malformed
  {
  }

  function TotalSize(chunks: seq<Bytes>): nat {
    if chunks == [] then 0 else |chunks[0]| + TotalSize(chunks[1..])
  }

  /** `Buffer.concat(chunks)`: the chunks' bytes one after another. */
  function Concat(chunks: seq<Bytes>): Bytes {
    if chunks == [] then [] else chunks[0] + Concat(chunks[1..])
  }

  /** The concatenation holds every byte of every chunk, the first chunk first. */
  lemma {:induction false} ConcatSize(chunks: seq<Bytes>)
    ensures |Concat(chunks)| == TotalSize(chunks)
    ensures chunks != [] ==> Concat(chunks)[..|chunks[0]|] == chunks[0]
  {
    if chunks != [] {
      ConcatSize(chunks[1..]);
    }
  }

  lemma {:induction false} ConcatAppend(a: seq<Bytes>, b: seq<Bytes>)
    ensures Concat(a + b) == Concat(a) + Concat(b)
  {
    if a == [] {
      assert a + b == b;
    } else {
      assert (a + b)[1..] == a[1..] + b;
      ConcatAppend(a[1..], b);
    }
  }

  /** `chunks.slice(-Window)`: the last `Window` chunks, or all of them when there are fewer. */
  function LastWindow(chunks: seq<Bytes>): seq<Bytes> {
    if |chunks| < Window then chunks else chunks[|chunks| - Window..]
  }

  /** The window is the last `min(Window, |chunks|)` chunks: what precedes it and the window make up the buffer. */
  lemma LastWindowSplit(chunks: seq<Bytes>)
    ensures var w := LastWindow(chunks);
            && |w| == (if |chunks| < Window then |chunks| else Window)
            && chunks == chunks[..|chunks| - |w|] + w
  {
  }

  /** A partial payload is the tail of the bytes a final over the same buffer would send. */
  lemma WindowIsSuffix(chunks: seq<Bytes>)
    ensures var w := LastWindow(chunks);
            Concat(chunks) == Concat(chunks[..|chunks| - |w|]) + Concat(w)
  {
    var w := LastWindow(chunks);
    LastWindowSplit(chunks);
    ConcatAppend(chunks[..|chunks| - |w|], w);
  }

  /**
   * A stop signal: with buffered chunks, all of them go to the provider as
   * one final request; success sends the provider's own text as final and
   * removes the session, failure reports an error and keeps the session as
   * it was. Without a session or without chunks nothing happens.
   */
  function StopFrame(s: Option<Session>, provider: ProviderResult): Outcome {
    if s.Some? && |s.value.chunks| > 0 then
      var request := Some(FinalRequest(Concat(s.value.chunks)));
      match provider
      case Transcribed(text) => Outcome(None, request, [Transcription(text, true)])
      case ProviderFailed => Outcome(s, request, [Error(TranscribeError)])
    else
      Outcome(s, None, [])
  }

  /** The cases of a stop signal, stated on what it does rather than how. */
  lemma StopFrameCases(s: Option<Session>, provider: ProviderResult)
    ensures var o := StopFrame(s, provider);
            && (o.request.Some? <==> s.Some? && s.value.chunks != [])
            && (o.request.Some? ==> o.request.value == FinalRequest(Concat(s.value.chunks)))
            && (o.request.None? ==> o == Outcome(s, None, []))
            && (o.request.Some? && provider.Transcribed? ==>
                  o.session == None && o.sent == [Transcription(provider.text, true)])
            && (o.request.Some? && provider.ProviderFailed? ==>
                  o.session == s && o.sent == [Error(TranscribeError)])
  {
  }

  /**
   * An audio frame: appended to a live session's chunks; when the count
   * becomes a multiple of `Window` the last `Window` chunks go to the
   * provider, and a success appends " " + text to the transcript and sends
   * the whole transcript as non-final. A failed partial sends nothing and
   * keeps the frame. Without a session the frame is ignored.
   */
  function AudioFrame(s: Option<Session>, data: Bytes, provider: ProviderResult): Outcome {
    if s.None? then Outcome(None, None, [])
    else
      var chunks := s.value.chunks + [data];
      if |chunks| % Window != 0 then Outcome(Some(s.value.(chunks := chunks)), None, [])
      else
        var request := Some(PartialRequest(Concat(LastWindow(chunks))));
        match provider
        case Transcribed(text) =>
          var updated := s.value.transcript + " " + text;
          Outcome(Some(Session(chunks, updated)), request, [Transcription(updated, false)])
        case ProviderFailed => Outcome(Some(s.value.(chunks := chunks)), request, [])
  }

  /** Without a session nothing happens; with one the frame is appended, and a call is made exactly when the count reaches a multiple of `Window`. */
  lemma AudioFrameCases(s: Option<Session>, data: Bytes, provider: ProviderResult)
    ensures var o := AudioFrame(s, data, provider);
            && (s.None? ==> o == Outcome(None, None, []))
            && (s.Some? ==> o.session.Some? && o.session.value.chunks == s.value.chunks + [data])
            && (o.request.Some? <==> s.Some? && (|s.value.chunks| + 1) % Window == 0)
  {
  }

  /**
   * A partial request carries the last `Window` chunks, the frame included;
   * a successful partial appends one space and the text to the transcript
   * and sends the whole transcript as non-final; otherwise the transcript
   * stays and nothing is sent.
   */
  lemma AudioFramePartial(s: Session, data: Bytes, provider: ProviderResult)
    ensures var o := AudioFrame(Some(s), data, provider);
            var chunks := s.chunks + [data];
            && (o.request.Some? ==>
                  |chunks| >= Window && o.request.value == PartialRequest(Concat(chunks[|chunks| - Window..])))
            && o.session.value.transcript
               == (if o.request.Some? && provider.Transcribed? then s.transcript + " " + provider.text else s.transcript)
            && o.sent
               == (if o.request.Some? && provider.Transcribed?
                   then [Transcription(o.session.value.transcript, false)]
                   else [])
  {
  }

  /** One inbound message, including the outer `catch` that reports a frame JSON.parse rejected. */
  function Receive(s: Option<Session>, data: Bytes, json: JsonView, provider: ProviderResult): Outcome {
    match Classify(data, json)
    case Unparsable => Outcome(s, None, [Error(ProcessError)])
    case StopSignal => StopFrame(s, provider)
    case Audio => AudioFrame(s, data, provider)
  }

  /** An unparsable frame changes nothing and is answered with one error; at most one message goes out per frame; a call needs a session, and no frame opens one. */
  lemma ReceiveCases(s: Option<Session>, data: Bytes, json: JsonView, provider: ProviderResult)
    ensures var o := Receive(s, data, json, provider);
            && (Classify(data, json) == Unparsable ==> o == Outcome(s, None, [Error(ProcessError)]))
            && |o.sent| <= 1
            && (o.request.Some? ==> s.Some?)
            && (s.None? ==> o.session.None?)
  {
  }

  /** The two module-level maps. */
  datatype Store = Store(audioChunks: map<ClientId, seq<Bytes>>, transcriptionBuffers: map<ClientId, string>)

  /** The effect of one message on the maps. */
  datatype Reaction = Reaction(store: Store, request: Option<Request>, sent: seq<Outbound>)

  /**
   * Both maps hold the same connections. Every handler keeps this when each
   * message is handled as one atomic step. A partial that resolves after a
   * close can break it in the source.
   */
  predicate SameSessions(st: Store) {
    st.audioChunks.Keys == st.transcriptionBuffers.Keys
  }

  /** Every connection other than `id` is the same in `st` and `st'`. */
  predicate OthersUnchanged(st: Store, st': Store, id: ClientId) {
    && st'.audioChunks - {id} == st.audioChunks - {id}
    && st'.transcriptionBuffers - {id} == st.transcriptionBuffers - {id}
  }

  /** Connection `id`'s entries, the transcript read as `transcriptionBuffers.get(clientId) || ""`. */
  function SessionOf(st: Store, id: ClientId): Option<Session> {
    if id !in st.audioChunks then None
    else Some(Session(st.audioChunks[id],
                      if id in st.transcriptionBuffers then st.transcriptionBuffers[id] else ""))
  }

  /** The connection handler: a fresh session with no chunks and an empty transcript. */
  function Opened(st: Store, id: ClientId): (r: Store)
    ensures SessionOf(r, id) == Some(Session([], ""))
    ensures OthersUnchanged(st, r, id)
    ensures SameSessions(st) ==> SameSessions(r)
  {
    Store(st.audioChunks[id := []], st.transcriptionBuffers[id := ""])
  }

  /** The close handler, also run after a delivered final: both entries go; closing a closed connection changes nothing. */
  function Closed(st: Store, id: ClientId): (r: Store)
    ensures id !in r.audioChunks && id !in r.transcriptionBuffers
    ensures OthersUnchanged(st, r, id)
    ensures id !in st.audioChunks && id !in st.transcriptionBuffers ==> r == st
    ensures SameSessions(st) ==> SameSessions(r)
  {
    Store(st.audioChunks - {id}, st.transcriptionBuffers - {id})
  }

  /** Writes connection `id`'s entries back: `set` on both maps, or `delete` on both. */
  function Put(st: Store, id: ClientId, s: Option<Session>): (r: Store)
    ensures SessionOf(r, id) == s
    ensures OthersUnchanged(st, r, id)
    ensures SameSessions(st) ==> SameSessions(r)
  {
    match s
    case None => Closed(st, id)
    case Some(x) => Store(st.audioChunks[id := x.chunks], st.transcriptionBuffers[id := x.transcript])
  }

  lemma PutUnchanged(st: Store, id: ClientId)
    requires SameSessions(st)
    ensures Put(st, id, SessionOf(st, id)) == st
  {
    if id in st.audioChunks {
      var r := Put(st, id, SessionOf(st, id));
      assert r.audioChunks == st.audioChunks;
      assert r.transcriptionBuffers == st.transcriptionBuffers;
    }
  }

  /** Writes an outcome for connection `id` back to the maps; an outcome that changes nothing leaves them as they are. */
  function Apply(st: Store, id: ClientId, o: Outcome): (r: Reaction)
    requires SameSessions(st)
    ensures SessionOf(r.store, id) == o.session
    ensures OthersUnchanged(st, r.store, id)
    ensures SameSessions(r.store)
    ensures o.session == SessionOf(st, id) ==> r.store == st
  {
    if o.session == SessionOf(st, id) then
      PutUnchanged(st, id);
      Reaction(st, o.request, o.sent)
    else
      Reaction(Put(st, id, o.session), o.request, o.sent)
  }

  /** The message handler on the maps: connection `id` changes as `Receive` says, every other connection stays. */
  function Handle(st: Store, id: ClientId, data: Bytes, json: JsonView, provider: ProviderResult): (r: Reaction)
    requires SameSessions(st)
    ensures SessionOf(r.store, id) == Receive(SessionOf(st, id), data, json, provider).session
    ensures OthersUnchanged(st, r.store, id)
    ensures SameSessions(r.store)
    ensures Classify(data, json) == Unparsable ==> r == Reaction(st, None, [Error(ProcessError)])
  {
    Apply(st, id, Receive(SessionOf(st, id), data, json, provider))
  }

  /** After a delivered final, the connection's frames are ignored: audio changes nothing and a stop makes no call. */
  lemma NothingAfterFinal(st: Store, id: ClientId, text: string, data: Bytes, json: JsonView, p: ProviderResult)
    requires SameSessions(st) && id in st.audioChunks && st.audioChunks[id] != []
    requires Classify(data, json) != Unparsable
    ensures var done := Put(st, id, StopFrame(SessionOf(st, id), Transcribed(text)).session);
            id !in done.audioChunks && Handle(done, id, data, json, p) == Reaction(done, None, [])
  {
  }

  /** An inbound frame with its parse outcome and the provider's answer, should a call be made. */
  datatype Inbound = Inbound(data: Bytes, json: JsonView, provider: ProviderResult)

  /** Everything a run of messages did to one connection: its entries after, the provider calls in order, the messages sent in order. */
  datatype Trace = Trace(session: Option<Session>, requests: seq<Request>, sent: seq<Outbound>)

  function RequestList(r: Option<Request>): seq<Request> {
    if r.Some? then [r.value] else []
  }

  /** Receives `msgs` on one connection, one after another. */
  function Run(s: Option<Session>, msgs: seq<Inbound>): Trace
    decreases |msgs|
  {
    if |msgs| == 0 then Trace(s, [], [])
    else
      var t := Run(s, msgs[..|msgs| - 1]);
      var m := msgs[|msgs| - 1];
      var o := Receive(t.session, m.data, m.json, m.provider);
      Trace(o.session, t.requests + RequestList(o.request), t.sent + o.sent)
  }

  /** Every frame of `msgs` is treated as audio. */
  predicate AllAudio(msgs: seq<Inbound>)
    decreases |msgs|
  {
    |msgs| == 0
    || (AllAudio(msgs[..|msgs| - 1]) && Classify(msgs[|msgs| - 1].data, msgs[|msgs| - 1].json) == Audio)
  }

  /** The frames' bytes, in arrival order. */
  function Payloads(msgs: seq<Inbound>): (r: seq<Bytes>)
    ensures |r| == |msgs|
  {
    if |msgs| == 0 then [] else Payloads(msgs[..|msgs| - 1]) + [msgs[|msgs| - 1].data]
  }

  /** The text a frame contributes when it makes the buffer hold `count` chunks. */
  function StepText(count: nat, m: Inbound): seq<string> {
    if count % Window == 0 && m.provider.Transcribed? then [m.provider.text] else []
  }

  /**
   * Reference definition: the provider texts of the partial requests that
   * succeed while `msgs` are appended to a buffer already holding `n` chunks.
   */
  function PartialTexts(n: nat, msgs: seq<Inbound>): seq<string>
    decreases |msgs|
  {
    if |msgs| == 0 then []
    else PartialTexts(n, msgs[..|msgs| - 1]) + StepText(n + |msgs|, msgs[|msgs| - 1])
  }

  lemma PartialTextsLast(n: nat, msgs: seq<Inbound>)
    requires |msgs| > 0
    ensures PartialTexts(n, msgs)
            == PartialTexts(n, msgs[..|msgs| - 1]) + StepText(n + |msgs|, msgs[|msgs| - 1])
  {
  }

  /** Each text prefixed by one space, in order. */
  function SpaceJoined(texts: seq<string>): string {
    if |texts| == 0 then "" else SpaceJoined(texts[..|texts| - 1]) + " " + texts[|texts| - 1]
  }

  /** Joining is piecewise: two batches of texts joined one after the other. */
  lemma {:induction false} SpaceJoinedAppend(texts: seq<string>, extra: seq<string>)
    ensures SpaceJoined(texts + extra) == SpaceJoined(texts) + SpaceJoined(extra)
    decreases |extra|
  {
    if extra == [] {
      assert texts + extra == texts;
    } else {
      var front, last := extra[..|extra| - 1], extra[|extra| - 1];
      assert (texts + extra)[..|texts + extra| - 1] == texts + front;
      SpaceJoinedAppend(texts, front);
      assert SpaceJoined(texts + extra) == SpaceJoined(texts) + SpaceJoined(front) + " " + last;
    }
  }

  /** `whole` is `prev` then `back`, and `prev` is `base` then `front`: so `whole` is `base` then `front` and `back` joined. */
  lemma Regroup(whole: string, prev: string, base: string, front: string, back: string, joined: string)
    requires whole == prev + back && prev == base + front && joined == front + back
    ensures whole == base + joined
  {
  }

  /** One step of `AudioSessionTranscript`: the texts so far, then the step's text. */
  lemma TranscriptStep(whole: string, prev: string, base: string, before: seq<string>, step: seq<string>)
    requires whole == prev + SpaceJoined(step) && prev == base + SpaceJoined(before)
    ensures whole == base + SpaceJoined(before + step)
  {
    SpaceJoinedAppend(before, step);
    Regroup(whole, prev, base, SpaceJoined(before), SpaceJoined(step), SpaceJoined(before + step));
  }

  lemma WindowStep(n: nat)
    ensures (n + 1) / Window == n / Window + (if (n + 1) % Window == 0 then 1 else 0)
  {
  }

  /** One audio frame on a live connection, making its chunk count `count`, spelled out. */
  lemma AudioStep(s: Session, m: Inbound, count: nat)
    requires Classify(m.data, m.json) == Audio && count == |s.chunks| + 1
    ensures Receive(Some(s), m.data, m.json, m.provider)
            == Outcome(Some(Grow(s, m, count)),
                       if count % Window == 0 then Some(PartialRequest(Concat(LastWindow(s.chunks + [m.data])))) else None,
                       if StepText(count, m) != [] then [Transcription(Grow(s, m, count).transcript, false)] else [])
  {
    assert Receive(Some(s), m.data, m.json, m.provider) == AudioFrame(Some(s), m.data, m.provider);
    assert |s.chunks + [m.data]| == count;
    if StepText(count, m) == [] {
      EmptyJoined(s.transcript);
    } else {
      SpacedText(s.transcript, m.provider.text);
    }
  }

  lemma EmptyJoined(a: string)
    ensures a + SpaceJoined([]) == a
  {
  }

  lemma SpacedText(a: string, t: string)
    ensures a + " " + t == a + SpaceJoined([t])
  {
    assert [t][..0] == [];
  }

  /** One audio frame on a live connection: what becomes of the session. */
  lemma AudioStepSession(s: Session, m: Inbound, count: nat)
    requires Classify(m.data, m.json) == Audio && count == |s.chunks| + 1
    ensures Receive(Some(s), m.data, m.json, m.provider).session == Some(Grow(s, m, count))
  {
    AudioStep(s, m, count);
  }

  /** One audio frame on a live connection, making `k` frames after `n`: the call it makes. */
  lemma AudioStepRequests(s: Session, m: Inbound, n: nat, k: nat)
    requires Classify(m.data, m.json) == Audio && k > 0 && n + k == |s.chunks| + 1
    ensures var o := Receive(Some(s), m.data, m.json, m.provider);
            && WindowsReached(n, k - 1) + |RequestList(o.request)| == WindowsReached(n, k)
            && AllPartial(RequestList(o.request))
  {
    AudioStep(s, m, n + k);
    WindowsReachedLast(n, k);
  }

  /** One audio frame on a live connection: the message it sends. */
  lemma AudioStepSent(s: Session, m: Inbound, count: nat)
    requires Classify(m.data, m.json) == Audio && count == |s.chunks| + 1
    ensures var o := Receive(Some(s), m.data, m.json, m.provider);
            |o.sent| == |StepText(count, m)| && AllNonFinal(o.sent)
  {
    AudioStep(s, m, count);
  }

  /** Every request is a partial one. */
  predicate AllPartial(rs: seq<Request>) {
    forall i :: 0 <= i < |rs| ==> rs[i].PartialRequest?
  }

  /** Every message is a non-final transcription. */
  predicate AllNonFinal(ms: seq<Outbound>) {
    forall i :: 0 <= i < |ms| ==> ms[i].Transcription? && !ms[i].isFinal
  }

  lemma AllPartialAppend(a: seq<Request>, b: seq<Request>)
    requires AllPartial(a) && AllPartial(b)
    ensures AllPartial(a + b)
  {
    forall i | 0 <= i < |a + b| ensures (a + b)[i].PartialRequest? {
      if i >= |a| {
        assert (a + b)[i] == b[i - |a|];
      }
    }
  }

  lemma AllNonFinalAppend(a: seq<Outbound>, b: seq<Outbound>)
    requires AllNonFinal(a) && AllNonFinal(b)
    ensures AllNonFinal(a + b)
  {
    forall i | 0 <= i < |a + b| ensures (a + b)[i].Transcription? && !(a + b)[i].isFinal {
      if i >= |a| {
        assert (a + b)[i] == b[i - |a|];
      }
    }
  }

  /** `Run` unfolded once. */
  lemma RunLast(s: Option<Session>, msgs: seq<Inbound>)
    requires |msgs| > 0
    ensures var t := Run(s, msgs[..|msgs| - 1]);
            var m := msgs[|msgs| - 1];
            var o := Receive(t.session, m.data, m.json, m.provider);
            Run(s, msgs) == Trace(o.session, t.requests + RequestList(o.request), t.sent + o.sent)
  {
  }

  /** How many of the counts `n + 1` .. `n + k` are multiples of `Window`. */
  function WindowsReached(n: nat, k: nat): nat {
    if k == 0 then 0 else WindowsReached(n, k - 1) + (if (n + k) % Window == 0 then 1 else 0)
  }

  lemma WindowsReachedLast(n: nat, k: nat)
    requires k > 0
    ensures WindowsReached(n, k) == WindowsReached(n, k - 1) + (if (n + k) % Window == 0 then 1 else 0)
  {
  }

  /** The counts that are multiples of `Window`, counted by division. */
  lemma {:induction false} WindowsReachedValue(n: nat, k: nat)
    ensures WindowsReached(n, k) == (n + k) / Window - n / Window
  {
    if k > 0 {
      WindowsReachedValue(n, k - 1);
      WindowStep(n + k - 1);
    }
  }

  /**
   * Reference definition of a live session after audio frames: each frame
   * appended, and the text of each successful partial appended after one
   * space.
   */
  function AudioSession(sess: Session, msgs: seq<Inbound>): (r: Session)
    ensures |r.chunks| == |sess.chunks| + |msgs|
    decreases |msgs|
  {
    if |msgs| == 0 then sess
    else Grow(AudioSession(sess, msgs[..|msgs| - 1]), msgs[|msgs| - 1], |sess.chunks| + |msgs|)
  }

  /** A live session after one more audio frame that makes its chunk count `count`. */
  function Grow(s: Session, m: Inbound, count: nat): Session {
    Session(s.chunks + [m.data], s.transcript + SpaceJoined(StepText(count, m)))
  }

  /** Audio frames on a live connection leave it live, as `AudioSession` says. */
  lemma {:induction false} AudioRun(sess: Session, msgs: seq<Inbound>)
    requires AllAudio(msgs)
    ensures Run(Some(sess), msgs).session == Some(AudioSession(sess, msgs))
    decreases |msgs|
  {
    if |msgs| > 0 {
      var init, m := msgs[..|msgs| - 1], msgs[|msgs| - 1];
      var count := |sess.chunks| + |msgs|;
      AudioRun(sess, init);
      var prev := AudioSession(sess, init);
      assert AudioSession(sess, msgs) == Grow(prev, m, count);
      assert Classify(m.data, m.json) == Audio;
      RunLast(Some(sess), msgs);
      AudioStepSession(prev, m, count);
    }
  }

  /** The chunks of `AudioSession`: every frame, in arrival order. */
  lemma {:induction false} AudioSessionChunks(sess: Session, msgs: seq<Inbound>)
    ensures AudioSession(sess, msgs).chunks == sess.chunks + Payloads(msgs)
    decreases |msgs|
  {
    if |msgs| > 0 {
      var init := msgs[..|msgs| - 1];
      AudioSessionChunks(sess, init);
      assert Payloads(msgs) == Payloads(init) + [msgs[|msgs| - 1].data];
    }
  }

  /** The transcript of `AudioSession`: the texts of the successful partials, in order, each after one space. */
  lemma {:induction false} AudioSessionTranscript(sess: Session, msgs: seq<Inbound>)
    ensures AudioSession(sess, msgs).transcript
            == sess.transcript + SpaceJoined(PartialTexts(|sess.chunks|, msgs))
    decreases |msgs|
  {
    if |msgs| == 0 {
      assert sess.transcript + SpaceJoined([]) == sess.transcript;
    } else {
      var init, m := msgs[..|msgs| - 1], msgs[|msgs| - 1];
      var count := |sess.chunks| + |msgs|;
      var prev := AudioSession(sess, init);
      var before := PartialTexts(|sess.chunks|, init);
      var step := StepText(count, m);
      var whole := AudioSession(sess, msgs).transcript;
      assert whole == prev.transcript + SpaceJoined(step) by {
        assert AudioSession(sess, msgs) == Grow(prev, m, count);
      }
      assert prev.transcript == sess.transcript + SpaceJoined(before) by {
        AudioSessionTranscript(sess, init);
      }
      assert PartialTexts(|sess.chunks|, msgs) == before + step by {
        PartialTextsLast(|sess.chunks|, msgs);
      }
      TranscriptStep(whole, prev.transcript, sess.transcript, before, step);
    }
  }

  /**
   * Audio frames on a live connection: one partial request each time the
   * count reaches a multiple of `Window`, and one non-final transcript
   * message per successful partial.
   */
  lemma {:induction false} AudioRunCalls(sess: Session, msgs: seq<Inbound>)
    requires AllAudio(msgs)
    ensures var t := Run(Some(sess), msgs);
            && |t.requests| == WindowsReached(|sess.chunks|, |msgs|)
            && AllPartial(t.requests)
            && |t.sent| == |PartialTexts(|sess.chunks|, msgs)|
            && AllNonFinal(t.sent)
    decreases |msgs|
  {
    if |msgs| > 0 {
      var init := msgs[..|msgs| - 1];
      var m := msgs[|msgs| - 1];
      var count := |sess.chunks| + |msgs|;
      AudioRunCalls(sess, init);
      AudioRun(sess, init);
      var t := Run(Some(sess), init);
      var o := Receive(Some(AudioSession(sess, init)), m.data, m.json, m.provider);
      RunLast(Some(sess), msgs);
      AudioStepRequests(AudioSession(sess, init), m, |sess.chunks|, |msgs|);
      AudioStepSent(AudioSession(sess, init), m, count);
      AllPartialAppend(t.requests, RequestList(o.request));
      AllNonFinalAppend(t.sent, o.sent);
      PartialTextsLast(|sess.chunks|, msgs);
    }
  }

  /**
   * A whole recording: a fresh connection receives audio frames and then a
   * stop whose final transcription succeeds. One partial request is made
   * per `Window` frames; the last request is a final one over every frame
   * in arrival order; the last message is the provider's own final text;
   * the session is gone.
   */
  lemma RecordingThenStop(msgs: seq<Inbound>, stop: Inbound)
    requires AllAudio(msgs) && |msgs| > 0
    requires Classify(stop.data, stop.json) == StopSignal && stop.provider.Transcribed?
    ensures var t := Run(Some(Session([], "")), msgs + [stop]);
            && |t.requests| == |msgs| / Window + 1
            && AllPartial(t.requests[..|t.requests| - 1])
            && t.requests[|t.requests| - 1] == FinalRequest(Concat(Payloads(msgs)))
            && |t.sent| > 0 && t.sent[|t.sent| - 1] == Transcription(stop.provider.text, true)
            && t.session.None?
  {
    var empty := Session([], "");
    var ta := Run(Some(empty), msgs);
    var final := FinalRequest(Concat(Payloads(msgs)));
    var last := Transcription(stop.provider.text, true);
    AudioRun(empty, msgs);
    assert AudioSession(empty, msgs).chunks == Payloads(msgs) by {
      AudioSessionChunks(empty, msgs);
      assert [] + Payloads(msgs) == Payloads(msgs);
    }
    StopStep(AudioSession(empty, msgs), stop);
    RunSnoc(Some(empty), msgs, stop);
    AudioRunCalls(empty, msgs);
    WindowsReachedValue(0, |msgs|);
    Snoc(ta.requests, final);
    Snoc(ta.sent, last);
  }

  /** A stop on a live connection with audio, whose final transcription succeeds. */
  lemma StopStep(s: Session, stop: Inbound)
    requires Classify(stop.data, stop.json) == StopSignal && stop.provider.Transcribed? && s.chunks != []
    ensures Receive(Some(s), stop.data, stop.json, stop.provider)
            == Outcome(None, Some(FinalRequest(Concat(s.chunks))), [Transcription(stop.provider.text, true)])
  {
  }

  /** `Run` on one more message. */
  lemma RunSnoc(s: Option<Session>, msgs: seq<Inbound>, m: Inbound)
    ensures var t := Run(s, msgs);
            var o := Receive(t.session, m.data, m.json, m.provider);
            Run(s, msgs + [m]) == Trace(o.session, t.requests + RequestList(o.request), t.sent + o.sent)
  {
    Snoc(msgs, m);
    RunLast(s, msgs + [m]);
  }

  lemma Snoc<T>(a: seq<T>, x: T)
    ensures |a + [x]| == |a| + 1 && (a + [x])[..|a|] == a && (a + [x])[|a|] == x
  {
  }

  /** At most one text per window reached: a partial may fail, and then nothing is added. */
  lemma {:induction false} PartialTextsAtMostWindows(n: nat, msgs: seq<Inbound>)
    ensures |PartialTexts(n, msgs)| <= WindowsReached(n, |msgs|)
    decreases |msgs|
  {
    if |msgs| > 0 {
      PartialTextsAtMostWindows(n, msgs[..|msgs| - 1]);
    }
  }

  /** Fewer than `Window` audio frames on a fresh connection (a recording cut short by a disconnect): no provider call and nothing sent. */
  lemma DisconnectBeforeWindow(msgs: seq<Inbound>)
    requires AllAudio(msgs) && |msgs| < Window
    ensures |Run(Some(Session([], "")), msgs).requests| == 0
    ensures Run(Some(Session([], "")), msgs).sent == []
  {
    AudioRunCalls(Session([], ""), msgs);
    WindowsReachedValue(0, |msgs|);
    PartialTextsAtMostWindows(0, msgs);
  }

  /** The provider is consulted only when a request is made: otherwise its answer makes no difference. */
  lemma ProviderOnlyWhenRequested(s: Option<Session>, data: Bytes, json: JsonView, p: ProviderResult, q: ProviderResult)
    requires Receive(s, data, json, p).request.None?
    ensures Receive(s, data, json, q) == Receive(s, data, json, p)
  {
  }

  /**
   * As written, a binary frame that happens to begin with the byte of `{`
   * and is not JSON is not buffered: it is answered with an error and lost.
   */
  lemma BraceFrameIsDropped(s: Session, data: Bytes, p: ProviderResult)
    requires LooksLikeJson(data)
    ensures Receive(Some(s), data, Malformed, p) == Outcome(Some(s), None, [Error(ProcessError)])
  {
  }

  /** The server's state: the two maps, updated in place by the handlers. */
  class Server {
    var audioChunks: map<ClientId, seq<Bytes>>
    var transcriptionBuffers: map<ClientId, string>

    function State(): Store
      reads this
    {
      Store(audioChunks, transcriptionBuffers)
    }

    ghost predicate Valid()
      reads this
    {
      SameSessions(State())
    }

    constructor ()
      ensures Valid() && State() == Store(map[], map[])
    {
      audioChunks := map[];
      transcriptionBuffers := map[];
    }

    /** `wss.on("connection")`, with the client id given by the caller. */
    method Connect(id: ClientId)
      requires Valid()
      modifies this
      ensures Valid() && State() == Opened(old(State()), id)
    {
      audioChunks := audioChunks[id := []];
      transcriptionBuffers := transcriptionBuffers[id := ""];
    }

    /** `ws.on("message")`: returns the provider call it made and the messages it sent. */
    method OnMessage(id: ClientId, data: Bytes, json: JsonView, provider: ProviderResult)
      returns (request: Option<Request>, sent: seq<Outbound>)
      requires Valid()
      modifies this
      ensures Valid()
      ensures Reaction(State(), request, sent) == Handle(old(State()), id, data, json, provider)
    {
      if LooksLikeJson(data) {
        if json.Malformed? {
          request, sent := None, [Error(ProcessError)];
          return;
        }
        if json.typeField == Some(StopType) {
          request, sent := OnStopSignal(id, provider);
          return;
        }
      }
      request, sent := OnAudioChunk(id, data, provider);
    }

    /** The stop branch of the message handler. */
    method OnStopSignal(id: ClientId, provider: ProviderResult)
      returns (request: Option<Request>, sent: seq<Outbound>)
      requires Valid()
      modifies this
      ensures Valid()
      ensures Reaction(State(), request, sent)
              == Apply(old(State()), id, StopFrame(SessionOf(old(State()), id), provider))
    {
      request, sent := None, [];
      if id in audioChunks && |audioChunks[id]| > 0 {
        request := Some(FinalRequest(Concat(audioChunks[id])));
        match provider {
          case Transcribed(text) =>
            sent := [Transcription(text, true)];
            audioChunks := audioChunks - {id};
            transcriptionBuffers := transcriptionBuffers - {id};
          case ProviderFailed =>
            sent := [Error(TranscribeError)];
        }
      }
    }

    /** The audio branch of the message handler. */
    method OnAudioChunk(id: ClientId, data: Bytes, provider: ProviderResult)
      returns (request: Option<Request>, sent: seq<Outbound>)
      requires Valid()
      modifies this
      ensures Valid()
      ensures Reaction(State(), request, sent)
              == Apply(old(State()), id, AudioFrame(SessionOf(old(State()), id), data, provider))
    {
      request, sent := None, [];
      ghost var st0 := State();
      if id in audioChunks {
        var current := if id in transcriptionBuffers then transcriptionBuffers[id] else "";
        var chunks := audioChunks[id] + [data];
        audioChunks := audioChunks[id := chunks];
        ghost var o := AudioFrame(SessionOf(st0, id), data, provider);
        assert |o.session.value.chunks| != |st0.audioChunks[id]|;
        if |chunks| % Window == 0 {
          request := Some(PartialRequest(Concat(LastWindow(chunks))));
          if provider.Transcribed? {
            transcriptionBuffers := transcriptionBuffers[id := current + " " + provider.text];
            sent := [Transcription(transcriptionBuffers[id], false)];
            assert o == Outcome(Some(Session(chunks, current + " " + provider.text)), request, sent);
          } else {
            assert o == Outcome(Some(Session(chunks, current)), request, sent);
          }
        } else {
          assert o == Outcome(Some(Session(chunks, current)), request, sent);
        }
        assert State() == Put(st0, id, o.session);
      }
    }

    /** `ws.on("close")`. */
    method Close(id: ClientId)
      requires Valid()
      modifies this
      ensures Valid() && State() == Closed(old(State()), id)
    {
      audioChunks := audioChunks - {id};
      transcriptionBuffers := transcriptionBuffers - {id};
    }
  }
}
