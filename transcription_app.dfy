/**
 * The live-transcription component of components/transcription-app.tsx: the
 * `HH:MM:SS` clock, the assembly of the recogniser's results into one text,
 * the capital first letter, and the component state that the start, pause,
 * resume, stop, reset, copy and save handlers update.
 *
 * Outside the model: the speech recogniser itself (whether it exists and
 * whether its `start`/`stop` throws are parameters), `Date.now` (a
 * parameter), the regular-expression punctuation pass (a function
 * parameter), toasts, the clipboard and the database insert (the handlers
 * return what they would write).
 */
module TranscriptionApp {
  import opened Wrappers
  import opened Text

  const MsPerSecond: nat := 1000
  const MsPerMinute: nat := 60 * 1000
  const MsPerHour: nat := 60 * 60 * 1000

  /** `formatTime(ms)`: whole hours, then minutes and seconds within the hour, each padded to two digits and joined by `:`. */
  function FormatTime(ms: nat): string {
    Clock(ms / MsPerHour, ms / MsPerMinute % 60, ms / MsPerSecond % 60)
  }

  /** The three padded fields joined by `:`. */
  function Clock(h: nat, m: nat, s: nat): string {
    Pad2(h) + (":" + (Pad2(m) + (":" + Pad2(s))))
  }

  /** Euclidean division is exact: `q` and `r` with `a == d * q + r` and `0 <= r < d` are the quotient and remainder. */
  lemma DivUnique(a: int, d: int, q: int, r: int)
    requires d > 0 && 0 <= r < d && a == d * q + r
    ensures a / d == q && a % d == r
  {
    var q', r' := a / d, a % d;
    assert d * q' + r' == d * q + r;
    if q' > q {
      MulStep(d, q' - q - 1);
    } else if q' < q {
      MulStep(d, q - q' - 1);
    }
  }

  lemma MulStep(d: int, k: int)
    requires d > 0 && k >= 0
    ensures d * (k + 1) >= d
  {
    assert d * (k + 1) == d * k + d;
    assert d * k >= 0;
  }

  /** Dividing by `b` and then by `c` is dividing by `b * c`. */
  lemma DivDiv(a: nat, b: nat, c: nat)
    requires b > 0 && c > 0
    ensures a / b / c == a / (b * c)
  {
    var q, r1, r2 := a / b / c, a % b, a / b % c;
    assert a / b == c * q + r2;
    assert a == b * (a / b) + r1;
    assert b * r2 <= b * (c - 1);
    assert a == (b * c) * q + (b * r2 + r1);
    DivUnique(a, b * c, q, b * r2 + r1);
  }

  /** The clock's fields decompose the whole seconds: minutes and seconds stay below 60 and the hours are not wrapped. */
  lemma ClockParts(ms: nat)
    ensures var h, m, s := ms / MsPerHour, ms / MsPerMinute % 60, ms / MsPerSecond % 60;
            m < 60 && s < 60 && h * 3600 + m * 60 + s == ms / MsPerSecond
  {
    var t := ms / 1000;
    DivDiv(ms, 1000, 60);
    DivDiv(ms, 1000, 3600);
    DivDiv(t, 60, 60);
    assert t == 60 * (t / 60) + t % 60;
    assert t / 60 == 60 * (t / 60 / 60) + t / 60 % 60;
  }

  /** The clock is read back to the hours, minutes and seconds it was made from. */
  lemma FormatTimeRoundTrip(ms: nat)
    ensures ReadClockFields(FormatTime(ms)) == Some([ms / MsPerHour, ms / MsPerMinute % 60, ms / MsPerSecond % 60])
  {
    ClockRoundTrip(ms / MsPerHour, ms / MsPerMinute % 60, ms / MsPerSecond % 60);
  }

  lemma ClockRoundTrip(h: nat, m: nat, s: nat)
    ensures ReadClockFields(Clock(h, m, s)) == Some([h, m, s])
  {
    ClockTail(m, s);
    ClockFieldsCons(Pad2(h), Pad2(m) + (":" + Pad2(s)), [m, s]);
    assert [h] + [m, s] == [h, m, s];
  }

  /** The minutes and seconds of the clock, read back. */
  lemma ClockTail(m: nat, s: nat)
    ensures ReadClockFields(Pad2(m) + (":" + Pad2(s))) == Some([m, s])
  {
    ClockFieldsOne(Pad2(s));
    ClockFieldsCons(Pad2(m), Pad2(s), [s]);
    assert [m] + [s] == [m, s];
  }

  /** Two times show the same clock exactly when they fall in the same whole second. */
  lemma FormatTimeSameSecond(a: nat, b: nat)
    ensures FormatTime(a) == FormatTime(b) <==> a / MsPerSecond == b / MsPerSecond
  {
    ClockParts(a);
    ClockParts(b);
    if FormatTime(a) == FormatTime(b) {
      FormatTimeRoundTrip(a);
      FormatTimeRoundTrip(b);
    }
    if a / 1000 == b / 1000 {
      DivDiv(a, 1000, 60);
      DivDiv(b, 1000, 60);
      DivDiv(a, 1000, 3600);
      DivDiv(b, 1000, 3600);
    }
  }

  /** Below 100 hours the clock is exactly `HH:MM:SS`. */
  lemma FormatTimeWidth(ms: nat)
    requires ms < 100 * MsPerHour
    ensures |FormatTime(ms)| == 8
  {
    var h := ms / MsPerHour;
    assert h < 100;
    ClockWidth(h, ms / MsPerMinute % 60, ms / MsPerSecond % 60);
  }

  lemma ClockWidth(h: nat, m: nat, s: nat)
    requires h < 100 && m < 100 && s < 100
    ensures |Clock(h, m, s)| == 8
  {
  }

  /** Every recognition result has at least one alternative, as the browser delivers them. */
  predicate HasAlternatives(results: seq<seq<string>>) {
    forall i :: 0 <= i < |results| ==> |results[i]| > 0
  }

  /** `event.results[i][0].transcript` for every result: the first alternatives, in result order. */
  function FirstAlternatives(results: seq<seq<string>>): (texts: seq<string>)
    requires HasAlternatives(results)
    ensures |texts| == |results| && forall i :: 0 <= i < |results| ==> texts[i] == results[i][0]
  {
    seq(|results|, i requires 0 <= i < |results| => results[i][0])
  }

  /** Reference definition: each text followed by one space, in order. */
  function Joined(texts: seq<string>): string
    decreases |texts|
  {
    if |texts| == 0 then "" else Joined(texts[..|texts| - 1]) + texts[|texts| - 1] + " "
  }

  /** Joining is piecewise: one batch of texts then another gives the two joined texts one after the other. */
  lemma {:induction false} JoinedAppend(a: seq<string>, b: seq<string>)
    ensures Joined(a + b) == Joined(a) + Joined(b)
    decreases |b|
  {
    if |b| == 0 {
      assert a + b == a;
    } else {
      var b' := b[..|b| - 1];
      assert (a + b)[..|a + b| - 1] == a + b';
      JoinedAppend(a, b');
    }
  }

  /** One text is followed by exactly one space. */
  lemma JoinedOne(text: string)
    ensures Joined([text]) == text + " "
  {
    assert [text][..0] == [];
  }

  /** The accumulating loop of `onresult`. */
  method AssembleTranscript(results: seq<seq<string>>) returns (text: string)
    requires HasAlternatives(results)
    ensures text == Joined(FirstAlternatives(results))
  {
    ghost var texts := FirstAlternatives(results);
    text := "";
    var i := 0;
    while i < |results|
      invariant 0 <= i <= |results|
      invariant text == Joined(texts[..i])
    {
      assert texts[..i + 1][..i] == texts[..i];
      text := text + results[i][0] + " ";
      i := i + 1;
    }
    assert texts[..|results|] == texts;
  }

  predicate IsLower(c: char) {
    'a' <= c <= 'z'
  }

  /** `toUpperCase` on one character, for ASCII letters. */
  function Upper(c: char): (u: char)
    ensures !IsLower(u)
    ensures IsLower(c) ==> u as int == c as int - 32
    ensures !IsLower(c) ==> u == c
  {
    if IsLower(c) then (c as int - 32) as char else c
  }

  /** `charAt(0).toUpperCase() + slice(1)` when the text is not empty. */
  function CapitalizeFirst(s: string): string {
    if |s| > 0 then [Upper(s[0])] + s[1..] else s
  }

  /** Only the first character can change, and it ends up not lower-case; text already capitalised is left as it is. */
  lemma CapitalizeFirstShape(s: string)
    ensures var r := CapitalizeFirst(s);
            && |r| == |s|
            && (|s| > 0 ==> r[1..] == s[1..] && r[0] == Upper(s[0]) && !IsLower(r[0]))
            && (|s| == 0 || !IsLower(s[0]) ==> r == s)
  {
  }

  lemma CapitalizeFirstIdempotent(s: string)
    ensures CapitalizeFirst(CapitalizeFirst(s)) == CapitalizeFirst(s)
  {
    if |s| > 0 {
      var r := CapitalizeFirst(s);
      assert r[0] == Upper(s[0]) && r[1..] == s[1..];
      assert [Upper(r[0])] + r[1..] == r;
    }
  }

  /** The listening and paused flags. */
  datatype Flags = Flags(listening: bool, paused: bool)

  datatype Control = Start | Pause | Resume | Stop

  /** What a handler does to the flags when the recogniser is present and did not throw. */
  function Apply(f: Flags, c: Control): Flags {
    match c
    case Start => Flags(true, false)
    case Pause => f.(paused := true)
    case Resume => f.(paused := false)
    case Stop => Flags(false, false)
  }

  /** The flags after a run of handlers that all went through. */
  function ApplyAll(f: Flags, cs: seq<Control>): Flags
    decreases |cs|
  {
    if |cs| == 0 then f else Apply(ApplyAll(f, cs[..|cs| - 1]), cs[|cs| - 1])
  }

  /** The last start or stop of a run, if any. */
  function LastStartStop(cs: seq<Control>): Option<Control>
    decreases |cs|
  {
    if |cs| == 0 then None
    else if cs[|cs| - 1] == Start || cs[|cs| - 1] == Stop then Some(cs[|cs| - 1])
    else LastStartStop(cs[..|cs| - 1])
  }

  /**
   * After a run, the component is paused exactly when the last handler was
   * pause, and listening exactly when the last start or stop was a start
   * (with neither, listening is as before).
   */
  lemma {:induction false} ApplyAllFlags(f: Flags, cs: seq<Control>)
    ensures |cs| > 0 ==> (ApplyAll(f, cs).paused <==> cs[|cs| - 1] == Pause)
    ensures ApplyAll(f, cs).listening
            <==> (if LastStartStop(cs).Some? then LastStartStop(cs) == Some(Start) else f.listening)
    decreases |cs|
  {
    if |cs| > 0 {
      ApplyAllFlags(f, cs[..|cs| - 1]);
    }
  }

  /** Pause then resume puts an unpaused component back as it was. */
  lemma PauseThenResume(f: Flags)
    requires !f.paused
    ensures Apply(Apply(f, Pause), Resume) == f
  {
  }

  const DefaultTitle: string := "Untitled Transcription"

  /** `if (startTime)`: a JavaScript number is false when it is absent or zero. */
  predicate Truthy(t: Option<int>) {
    t.Some? && t.value != 0
  }

  /** The row `saveTranscription` inserts. */
  datatype Row = Row(userId: string, title: string, content: string, duration: int)

  /** The component's state; `recognizer` is whether the browser provided a speech recogniser. */
  class TranscriptionApp {
    const recognizer: bool
    var isListening: bool
    var isPaused: bool
    var transcript: string
    var title: string
    var isSaving: bool
    var startTime: Option<int>
    var elapsedTime: int
    /** The start captured by the running one-second interval, None when no interval runs. */
    var ticking: Option<int>

    function FlagsOf(): Flags
      reads this
    {
      Flags(isListening, isPaused)
    }

    constructor (recognizer: bool)
      ensures this.recognizer == recognizer
      ensures FlagsOf() == Flags(false, false) && transcript == "" && title == DefaultTitle
      ensures !isSaving && startTime == None && elapsedTime == 0 && ticking == None
    {
      this.recognizer := recognizer;
      isListening, isPaused := false, false;
      transcript, title := "", DefaultTitle;
      isSaving := false;
      startTime, elapsedTime, ticking := None, 0, None;
    }

    /** `startListening`: the clock restarts from the elapsed time, so `now - start` is that time. */
    method StartListening(now: int, throws: bool)
      modifies this
      ensures if !recognizer || throws then unchanged(this)
              else && FlagsOf() == Apply(old(FlagsOf()), Start)
                   && startTime == Some(now - elapsedTime) && ticking == startTime
                   && elapsedTime == old(elapsedTime) && transcript == old(transcript)
                   && title == old(title) && isSaving == old(isSaving)
    {
      if !recognizer || throws {
        return;
      }
      isListening := true;
      isPaused := false;
      var start := now - elapsedTime;
      startTime := Some(start);
      ticking := Some(start);
    }

    /** `pauseListening`: the interval is cleared. */
    method PauseListening(throws: bool)
      modifies this
      ensures if !recognizer || throws then unchanged(this)
              else && FlagsOf() == Apply(old(FlagsOf()), Pause) && ticking == None
                   && startTime == old(startTime) && elapsedTime == old(elapsedTime)
                   && transcript == old(transcript) && title == old(title) && isSaving == old(isSaving)
    {
      if !recognizer || throws {
        return;
      }
      isPaused := true;
      ticking := None;
    }

    /** `resumeListening`: the clock restarts only when `startTime` is truthy. */
    method ResumeListening(now: int, throws: bool)
      modifies this
      ensures if !recognizer || throws then unchanged(this)
              else && FlagsOf() == Apply(old(FlagsOf()), Resume)
                   && (Truthy(old(startTime)) ==> startTime == Some(now - elapsedTime) && ticking == startTime)
                   && (!Truthy(old(startTime)) ==> startTime == old(startTime) && ticking == old(ticking))
                   && elapsedTime == old(elapsedTime) && transcript == old(transcript)
                   && title == old(title) && isSaving == old(isSaving)
    {
      if !recognizer || throws {
        return;
      }
      isPaused := false;
      if Truthy(startTime) {
        var start := now - elapsedTime;
        startTime := Some(start);
        ticking := Some(start);
      }
    }

    /** `stopListening`, also run when the recogniser reports "not-allowed". */
    method StopListening(throws: bool)
      modifies this
      ensures if !recognizer || throws then unchanged(this)
              else && FlagsOf() == Apply(old(FlagsOf()), Stop) && ticking == None
                   && startTime == old(startTime) && elapsedTime == old(elapsedTime)
                   && transcript == old(transcript) && title == old(title) && isSaving == old(isSaving)
    {
      if !recognizer || throws {
        return;
      }
      isListening := false;
      isPaused := false;
      ticking := None;
    }

    /** `onerror`: only a "not-allowed" error stops listening. */
    method OnError(error: string, throws: bool)
      modifies this
      ensures if error == "not-allowed" && recognizer && !throws
              then FlagsOf() == Flags(false, false) && ticking == None
              else unchanged(this)
      ensures startTime == old(startTime) && elapsedTime == old(elapsedTime) && transcript == old(transcript)
      ensures title == old(title) && isSaving == old(isSaving)
    {
      if error == "not-allowed" {
        StopListening(throws);
      }
    }

    /** One tick of the running interval: the elapsed time is measured from the start it captured. */
    method Tick(now: int)
      requires ticking.Some?
      modifies this
      ensures elapsedTime == now - old(ticking.value)
      ensures FlagsOf() == old(FlagsOf()) && startTime == old(startTime) && ticking == old(ticking)
      ensures transcript == old(transcript) && title == old(title) && isSaving == old(isSaving)
    {
      elapsedTime := now - ticking.value;
    }

    /** `onresult`: the results joined, then the punctuation pass, then the first letter capitalised. */
    method OnResult(results: seq<seq<string>>, punctuate: string -> string)
      requires HasAlternatives(results)
      modifies this
      ensures transcript == CapitalizeFirst(punctuate(Joined(FirstAlternatives(results))))
      ensures FlagsOf() == old(FlagsOf()) && title == old(title) && isSaving == old(isSaving)
      ensures startTime == old(startTime) && elapsedTime == old(elapsedTime) && ticking == old(ticking)
    {
      var raw := AssembleTranscript(results);
      transcript := CapitalizeFirst(punctuate(raw));
    }

    /** `resetTranscription`: a running interval is not cleared. */
    method Reset()
      modifies this
      ensures transcript == "" && title == DefaultTitle && elapsedTime == 0 && startTime == None
      ensures FlagsOf() == old(FlagsOf()) && isSaving == old(isSaving) && ticking == old(ticking)
    {
      transcript := "";
      title := DefaultTitle;
      elapsedTime := 0;
      startTime := None;
    }

    /** `copyTranscription`: what is written to the clipboard, nothing when the transcript is empty. */
    method Copy() returns (clipboard: Option<string>)
      ensures clipboard.Some? <==> transcript != ""
      ensures clipboard.Some? ==> clipboard.value == transcript
    {
      if transcript == "" {
        return None;
      }
      return Some(transcript);
    }

    /**
     * `saveTranscription`: refused without a signed-in user or with an empty
     * transcript; otherwise the row carries the whole seconds elapsed and
     * the saving flag is cleared whatever the insert did.
     */
    method Save(user: Option<string>) returns (insert: Option<Row>)
      modifies this
      ensures insert.Some? <==> user.Some? && transcript != ""
      ensures insert.Some? ==> insert.value == Row(user.value, title, transcript, elapsedTime / MsPerSecond)
      ensures insert.Some? ==> !isSaving
      ensures insert.None? ==> isSaving == old(isSaving)
      ensures FlagsOf() == old(FlagsOf()) && transcript == old(transcript) && title == old(title)
      ensures startTime == old(startTime) && elapsedTime == old(elapsedTime) && ticking == old(ticking)
    {
      if user.None? || transcript == "" {
        return None;
      }
      isSaving := true;
      insert := Some(Row(user.value, title, transcript, elapsedTime / MsPerSecond));
      isSaving := false;
    }
  }
}
